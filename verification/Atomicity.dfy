/**
 * The service that answers one request at a time, seen as an interleaving: whatever a request does to the sessions, single
 * loads, clock readings, stores and removals do, so what holds of all interleavings holds of the service.
 */
module Atomicity {
  import opened Basics
  import opened Settings
  import opened Entities
  import opened Clients
  import opened Validators
  import opened Traces
  import opened Protocol
  import opened Invariants
  import opened Preservation
  import opened Lifetimes
  import opened Logins
  import opened Effects
  import opened Callbacks
  import S = SharedSessions

  /** The sessions without their deadlines. */
  function Values(sessions: Cache<Session>): map<string, Session> {
    map s | s in sessions :: sessions[s].value
  }

  /** Nobody is in flight, and the store holds the sessions of the world. */
  predicate Shows(s: S.Shared, w: World) {
    s.store == Values(w.sessions) && s.flights == map[] && s.now == w.now && s.minted <= w.minted
  }

  // ---------------------------------------------------------------- sequences of actions

  lemma {:induction false} RunAll(cfg: Config, s: S.Shared, first: seq<S.Action>, second: seq<S.Action>)
    ensures S.Run(cfg, s, first + second) == S.Run(cfg, S.Run(cfg, s, first), second)
  {
    hide S.Apply;
    if second == [] {
      assert first + second == first;
    } else {
      var front := second[..|second| - 1];
      assert (first + second)[..|first + second| - 1] == first + front;
      RunAll(cfg, s, first, front);
    }
  }

  lemma RunOne(cfg: Config, s: S.Shared, a: S.Action)
    ensures S.Run(cfg, s, [a]) == S.Apply(cfg, s, a)
  {
    hide S.Apply;
    assert [a][..0] == [] && S.Run(cfg, s, [a][..0]) == s;
  }

  lemma RunTwo(cfg: Config, s: S.Shared, a: S.Action, b: S.Action)
    ensures S.Run(cfg, s, [a, b]) == S.Apply(cfg, S.Apply(cfg, s, a), b)
  {
    hide S.Apply, S.Run;
    RunAll(cfg, s, [a], [b]);
    RunOne(cfg, s, a);
    RunOne(cfg, S.Apply(cfg, s, a), b);
    assert [a] + [b] == [a, b];
  }

  lemma RunThree(cfg: Config, s: S.Shared, a: S.Action, b: S.Action, c: S.Action)
    ensures S.Run(cfg, s, [a, b, c]) == S.Apply(cfg, S.Apply(cfg, S.Apply(cfg, s, a), b), c)
  {
    hide S.Apply, S.Run;
    RunAll(cfg, s, [a, b], [c]);
    RunTwo(cfg, s, a, b);
    RunOne(cfg, S.Apply(cfg, S.Apply(cfg, s, a), b), c);
    assert [a, b] + [c] == [a, b, c];
  }

  /** Storing what a worker is about to store, when nobody else is in flight. */
  lemma StoreAlone(cfg: Config, s: S.Shared, session: Session)
    requires s.flights == map[0 := S.Ready(session)]
    ensures S.Apply(cfg, s, S.Store(0)) == s.(store := s.store[session.id := session], flights := map[])
  {
    assert s.flights - {0} == map[];
  }

  lemma KeepAliveAlone(cfg: Config, s: S.Shared, id: string)
    requires s.flights == map[] && id in s.store
    ensures
      var x := s.store[id].(lastAccessed := Some(s.now));
      S.Run(cfg, s, [S.Load(0, S.Keeper, id), S.StampAccess(0), S.Store(0)]) == s.(store := s.store[x.id := x])
  {
    var s1 := S.Apply(cfg, s, S.Load(0, S.Keeper, id));
    var s2 := S.Apply(cfg, s1, S.StampAccess(0));
    RunThree(cfg, s, S.Load(0, S.Keeper, id), S.StampAccess(0), S.Store(0));
    hide S.Run;
    StoreAlone(cfg, s2, s.store[id].(lastAccessed := Some(s.now)));
  }

  lemma TermsAlone(cfg: Config, s: S.Shared, id: string, data: UserData)
    requires s.flights == map[] && id in s.store
    ensures
      var x := AfterTerms(cfg, s.store[id], data, s.now);
      S.Run(cfg, s, [S.Load(0, S.Accepter, id), S.StampTerms(0, data), S.Store(0)]) == s.(store := s.store[x.id := x])
  {
    hide AfterTerms;
    var s1 := S.Apply(cfg, s, S.Load(0, S.Accepter, id));
    var s2 := S.Apply(cfg, s1, S.StampTerms(0, data));
    RunThree(cfg, s, S.Load(0, S.Accepter, id), S.StampTerms(0, data), S.Store(0));
    hide S.Run;
    StoreAlone(cfg, s2, AfterTerms(cfg, s.store[id], data, s.now));
  }

  lemma ChoiceAlone(cfg: Config, s: S.Shared, id: string, roleID: Option<string>)
    requires s.flights == map[] && id in s.store && S.Permits(cfg, s.store[id], roleID)
    ensures
      var x := AfterRole(s.store[id], ChosenRole(s.store[id], roleID).value);
      S.Run(cfg, s, [S.Load(0, S.Chooser(roleID), id), S.ChooseRole(0), S.Store(0)]) == s.(store := s.store[x.id := x])
  {
    hide AfterRole, ChosenRole, TermsGateOpen;
    var s1 := S.Apply(cfg, s, S.Load(0, S.Chooser(roleID), id));
    var s2 := S.Apply(cfg, s1, S.ChooseRole(0));
    RunThree(cfg, s, S.Load(0, S.Chooser(roleID), id), S.ChooseRole(0), S.Store(0));
    hide S.Run;
    StoreAlone(cfg, s2, AfterRole(s.store[id], ChosenRole(s.store[id], roleID).value));
  }

  lemma LoginAlone(cfg: Config, s: S.Shared, id: string, data: UserData)
    requires s.flights == map[] && id !in s.minted
    ensures
      S.Run(cfg, s, [S.StampLogin(0, id, data), S.Store(0)]) ==
        s.(store := s.store[id := NewSession(cfg, id, data, s.now)], minted := s.minted + {id})
  {
    NewSessionID(cfg, id, data, s.now);
    hide NewSession;
    RunTwo(cfg, s, S.StampLogin(0, id, data), S.Store(0));
    hide S.Run;
    StoreAlone(cfg, S.Apply(cfg, s, S.StampLogin(0, id, data)), NewSession(cfg, id, data, s.now));
  }

  lemma ServiceAlone(cfg: Config, s: S.Shared, id: string, data: UserData)
    requires s.flights == map[] && id !in s.minted
    ensures
      S.Run(cfg, s, [S.StampService(0, id, data), S.Store(0)]) ==
        s.(store := s.store[id := NewServiceSession(id, data, s.now)], minted := s.minted + {id})
  {
    ServiceSessionID(id, data, s.now);
    hide NewServiceSession;
    RunTwo(cfg, s, S.StampService(0, id, data), S.Store(0));
    hide S.Run;
    StoreAlone(cfg, S.Apply(cfg, s, S.StampService(0, id, data)), NewServiceSession(id, data, s.now));
  }

  lemma {:induction false} RemoveAll(cfg: Config, s: S.Shared, ids: set<string>) returns (actions: seq<S.Action>)
    ensures S.Run(cfg, s, actions) == s.(store := s.store - ids)
    decreases ids
  {
    actions := [];
    if ids == {} {
      assert s.store - ids == s.store;
    } else {
      var id :| id in ids;
      var rest := RemoveAll(cfg, s.(store := s.store - {id}), ids - {id});
      RunAll(cfg, s, [S.Remove(id)], rest);
      RunOne(cfg, s, S.Remove(id));
      assert s.store - {id} - (ids - {id}) == s.store - ids;
      actions := [S.Remove(id)] + rest;
    }
  }

  lemma TickAlone(cfg: Config, s: S.Shared, time: int)
    requires s.now <= time
    ensures S.Run(cfg, s, [S.Tick(time)]) == s.(now := time)
  {
    RunOne(cfg, s, S.Tick(time));
  }

  // ---------------------------------------------------------------- one request

  /** The actions lead from `s` to the store `store` with nobody in flight; they draw at most the name `id`. */
  predicate LeadsThere(cfg: Config, s: S.Shared, actions: seq<S.Action>, store: map<string, Session>, id: string) {
    var after := S.Run(cfg, s, actions);
    after.store == store && after.flights == map[] && after.now == s.now && after.minted <= s.minted + {id}
  }

  /** The machine as the request finds it: nobody is in flight and it is the request's time. */
  predicate Ready(s: S.Shared, w: World, ctx: Context) {
    s.store == Values(w.sessions) && s.flights == map[] && s.now == ctx.now && s.minted <= w.minted
  }

  lemma Nothing(cfg: Config, s: S.Shared, id: string)
    requires s.flights == map[]
    ensures LeadsThere(cfg, s, [], s.store, id)
  {
  }

  lemma ValuesOf(sessions: Cache<Session>, id: string, entry: Entry<Session>, ids: set<string>)
    ensures Values(sessions[id := entry]) == Values(sessions)[id := entry.value]
    ensures Values(sessions - ids) == Values(sessions) - ids
  {
  }

  lemma RemoveStep(cfg: Config, w: World, ctx: Context, s: S.Shared, id: string, removed: bool) returns (actions: seq<S.Action>)
    requires Ready(s, w, ctx)
    ensures LeadsThere(cfg, s, actions, Values(if removed then w.sessions - {id} else w.sessions), ctx.names.session)
  {
    actions := if removed then [S.Remove(id)] else [];
    RunOne(cfg, s, S.Remove(id));
    assert Values(w.sessions - {id}) == Values(w.sessions) - {id};
  }

  lemma KeepAliveStepAlone(cfg: Config, h: Trust, w: World, ctx: Context, s: S.Shared, id: string) returns (actions: seq<S.Action>)
    requires Sound(cfg) && Reached(cfg, h, w) && Ready(s, w, ctx) && Live(w, ctx, id)
    ensures LeadsThere(cfg, s, actions, Values(Protocol.Apply(cfg, w, Step(ctx, KeepAlive(id))).sessions), ctx.names.session)
  {
    hide Reached, Protocol.Apply, S.Run;
    KeepAliveRenews(cfg, h, w, ctx, id);
    BearerIs(cfg, h, w, ctx, id);
    if ctx.ok.sessionWrite {
      actions := [S.Load(0, S.Keeper, id), S.StampAccess(0), S.Store(0)];
      KeepAliveAlone(cfg, s, id);
      ValuesOf(w.sessions, id, Entry(w.sessions[id].value.(lastAccessed := Some(ctx.now)), ctx.now + cfg.sessionTimeout), {});
    } else {
      actions := [];
      Nothing(cfg, s, ctx.names.session);
    }
  }

  lemma TermsSessions(cfg: Config, h: Trust, w: World, ctx: Context, id: string, answer: Answer)
    requires Sound(cfg) && Reached(cfg, h, w) && Live(w, ctx, id)
    ensures
      Protocol.Apply(cfg, w, Step(ctx, AcceptTerms(id, answer))).sessions ==
        if answer.Granted? && ctx.ok.sessionWrite
        then w.sessions[id := Entry(AfterTerms(cfg, w.sessions[id].value, answer.data, ctx.now), ctx.now + cfg.sessionTimeout)]
        else w.sessions
  {
    hide Reached, AfterTerms, Resolve;
    BearerIs(cfg, h, w, ctx, id);
    if answer.Granted? {
      AfterTermsID(cfg, w.sessions[id].value, answer.data, ctx.now);
    }
  }

  lemma TermsStepAlone(cfg: Config, h: Trust, w: World, ctx: Context, s: S.Shared, id: string, answer: Answer)
    returns (actions: seq<S.Action>)
    requires Sound(cfg) && Reached(cfg, h, w) && Ready(s, w, ctx) && Live(w, ctx, id)
    ensures
      LeadsThere(cfg, s, actions, Values(Protocol.Apply(cfg, w, Step(ctx, AcceptTerms(id, answer))).sessions), ctx.names.session)
  {
    hide Reached, Protocol.Apply, S.Run, AfterTerms;
    TermsSessions(cfg, h, w, ctx, id, answer);
    BearerIs(cfg, h, w, ctx, id);
    if answer.Granted? && ctx.ok.sessionWrite {
      var x := AfterTerms(cfg, w.sessions[id].value, answer.data, ctx.now);
      actions := [S.Load(0, S.Accepter, id), S.StampTerms(0, answer.data), S.Store(0)];
      AfterTermsID(cfg, w.sessions[id].value, answer.data, ctx.now);
      TermsAlone(cfg, s, id, answer.data);
      ValuesOf(w.sessions, id, Entry(x, ctx.now + cfg.sessionTimeout), {});
    } else {
      actions := [];
      Nothing(cfg, s, ctx.names.session);
    }
  }

  lemma PermittedChoice(cfg: Config, before: Session, roleID: Option<string>, i: nat)
    requires Permitted(cfg, before, roleID, i)
    ensures i < |before.roles| && S.Permits(cfg, before, roleID)
    ensures AfterRole(before, ChosenRole(before, roleID).value) == before.(role := Some(before.roles[i]), state := Authorized)
  {
    ChosenRoleIs(before, roleID);
  }

  /** The sessions after a permitted role choice that was stored, and that may have found its session outlived. */
  lemma RoleSessions(cfg: Config, h: Trust, w: World, ctx: Context, id: string, roleID: Option<string>) returns (removed: bool)
    requires Sound(cfg) && Reached(cfg, h, w) && Live(w, ctx, id)
    requires ctx.ok.sessionWrite && SomePermitted(cfg, w.sessions[id].value, roleID)
    ensures S.Permits(cfg, w.sessions[id].value, roleID)
    ensures
      var before := w.sessions[id].value;
      var x := AfterRole(before, ChosenRole(before, roleID).value);
      var after := Protocol.Apply(cfg, w, Step(ctx, SetRole(id, roleID))).sessions;
      x.id == id && after == if removed then w.sessions - {id} else w.sessions[id := Entry(x, ctx.now + cfg.sessionTimeout)]
  {
    hide Reached, Protocol.Apply, ChosenRole, IsChoice, Outlived, Permitted, S.Permits;
    var before := w.sessions[id].value;
    BearerIs(cfg, h, w, ctx, id);
    var i: nat :| Permitted(cfg, before, roleID, i);
    PermittedChoice(cfg, before, roleID, i);
    RoleChoicesAreStored(cfg, h, w, ctx, id, roleID, i);
    removed := Outlived(cfg.sessionTimeout, before.lastAccessed, ctx.now) && ctx.ok.audit && ctx.ok.sessionDelete;
  }

  lemma RoleStepAlone(cfg: Config, h: Trust, w: World, ctx: Context, s: S.Shared, id: string, roleID: Option<string>)
    returns (actions: seq<S.Action>)
    requires Sound(cfg) && Reached(cfg, h, w) && Ready(s, w, ctx) && Live(w, ctx, id)
    ensures LeadsThere(cfg, s, actions, Values(Protocol.Apply(cfg, w, Step(ctx, SetRole(id, roleID))).sessions), ctx.names.session)
  {
    hide Reached, Protocol.Apply, S.Run, ChosenRole, SomePermitted, AfterRole;
    if ctx.ok.sessionWrite && SomePermitted(cfg, w.sessions[id].value, roleID) {
      var removed := RoleSessions(cfg, h, w, ctx, id, roleID);
      var x := AfterRole(w.sessions[id].value, ChosenRole(w.sessions[id].value, roleID).value);
      actions := [S.Load(0, S.Chooser(roleID), id), S.ChooseRole(0), S.Store(0)];
      ChoiceAlone(cfg, s, id, roleID);
      ValuesOf(w.sessions, id, Entry(x, ctx.now + cfg.sessionTimeout), {id});
      if removed {
        var s1 := S.Run(cfg, s, actions);
        RunAll(cfg, s, actions, [S.Remove(id)]);
        RunOne(cfg, s1, S.Remove(id));
        assert s1.store - {id} == s.store - {id};
        actions := actions + [S.Remove(id)];
      }
    } else {
      OtherRoleChoicesDoNothing(cfg, h, w, ctx, id, roleID);
      actions := [];
      Nothing(cfg, s, ctx.names.session);
    }
  }

  lemma SessionStepAlone(cfg: Config, h: Trust, w: World, ctx: Context, s: S.Shared, request: Request) returns (actions: seq<S.Action>)
    requires Sound(cfg) && Reached(cfg, h, w) && Ready(s, w, ctx) && AboutSession(request)
    ensures LeadsThere(cfg, s, actions, Values(Protocol.Apply(cfg, w, Step(ctx, request)).sessions), ctx.names.session)
  {
    hide Reached, Protocol.Apply, S.Run, Outlived, LeadsThere;
    if !Live(w, ctx, request.bearer) {
      StrangersDoNothing(cfg, w, ctx, request);
      Nothing(cfg, s, ctx.names.session);
      actions := [];
    } else {
      match request
      case GetSession(id) =>
        ReadingRemovesOutlived(cfg, h, w, ctx, id);
        actions := RemoveStep(cfg, w, ctx, s, id,
          Outlived(cfg.sessionTimeout, w.sessions[id].value.lastAccessed, ctx.now) && ctx.ok.sessionDelete);
      case KeepAlive(id) => actions := KeepAliveStepAlone(cfg, h, w, ctx, s, id);
      case Logout(id) =>
        LogoutRemoves(cfg, h, w, ctx, id);
        actions := RemoveStep(cfg, w, ctx, s, id, ctx.ok.sessionDelete);
      case AcceptTerms(id, answer) => actions := TermsStepAlone(cfg, h, w, ctx, s, id, answer);
      case SetRole(id, roleID) => actions := RoleStepAlone(cfg, h, w, ctx, s, id, roleID);
    }
  }

  lemma CallbackStepAlone(cfg: Config, h: Trust, w: World, ctx: Context, s: S.Shared, q: CallbackQuery) returns (actions: seq<S.Action>)
    requires Sound(cfg) && Reached(cfg, h, w) && Ready(s, w, ctx) && ctx.names.session !in w.minted
    requires Admissible(w, Step(ctx, Callback(q))) && Meets(h, Step(ctx, Callback(q)))
    ensures LeadsThere(cfg, s, actions, Values(Protocol.Apply(cfg, w, Step(ctx, Callback(q))).sessions), ctx.names.session)
  {
    hide Reached, Protocol.Apply, S.Run, NewSession, LeavesOne, Admissible, Meets;
    CallbackSessions(cfg, h, w, ctx, q);
    if LeavesOne(cfg, w, ctx, q) {
      var id := ctx.names.session;
      var data := LeavesAnswer(cfg, w, ctx, q);
      actions := [S.StampLogin(0, id, data), S.Store(0)];
      LoginAlone(cfg, s, id, data);
      ValuesOf(w.sessions, id, Entry(NewSession(cfg, id, data, ctx.now), ctx.now + cfg.sessionTimeout), {});
    } else {
      actions := [];
      Nothing(cfg, s, ctx.names.session);
    }
  }

  lemma LeavesAnswer(cfg: Config, w: World, ctx: Context, q: CallbackQuery) returns (data: UserData)
    requires LeavesOne(cfg, w, ctx, q)
    ensures q.result == Authenticated(false, Granted(data))
  {
    data := q.result.answer.data;
  }

  /** The sessions after a token request: as they were, or with the session of a service client. */
  lemma TokenSessions(cfg: Config, w: World, ctx: Context, form: TokenForm)
    requires ctx.names.session !in w.sessions
    ensures
      var after := Protocol.Apply(cfg, w, Step(ctx, Token(form))).sessions;
      after == w.sessions || (form.answer.Granted? && after == WithService(cfg, Enter(w, ctx), ctx.names.session, form.answer.data))
  {
    hide ServiceClient, NewServiceSession, GetSecondsToLive, OpenService, ExchangeStep;
    ExchangeSpares(cfg, Enter(w, ctx), ctx, form.redirectURI, form.code);
    if form.answer.Granted? {
      OpenSessions(cfg, Enter(w, ctx), ctx, form.answer.data);
    }
  }

  lemma ExchangeSpares(cfg: Config, w: World, ctx: Context, redirectURI: Option<string>, code: Option<string>)
    ensures ExchangeStep(cfg, w, ctx, redirectURI, code).sessions == w.sessions
  {
    hide GetSecondsToLive;
  }

  lemma OpenSessions(cfg: Config, w: World, ctx: Context, data: UserData)
    requires ctx.names.session !in w.sessions
    ensures OpenService(cfg, w, ctx, data).sessions in {w.sessions, WithService(cfg, w, ctx.names.session, data)}
  {
    hide NewServiceSession, GetSecondsToLive;
    ServiceSessionID(ctx.names.session, data, w.now);
    var id, entry := ctx.names.session, Entry(NewServiceSession(ctx.names.session, data, w.now), w.now + cfg.sessionTimeout);
    assert Drop(w.sessions[id := entry], id) == w.sessions && Drop(w.sessions, id) == w.sessions;
  }

  lemma TokenStepAlone(cfg: Config, w: World, ctx: Context, s: S.Shared, form: TokenForm) returns (actions: seq<S.Action>)
    requires Ready(s, w, ctx) && ctx.names.session !in w.minted && ctx.names.session !in w.sessions
    ensures LeadsThere(cfg, s, actions, Values(Protocol.Apply(cfg, w, Step(ctx, Token(form))).sessions), ctx.names.session)
  {
    hide Protocol.Apply, S.Run, NewServiceSession;
    TokenSessions(cfg, w, ctx, form);
    if Protocol.Apply(cfg, w, Step(ctx, Token(form))).sessions == w.sessions {
      actions := [];
      Nothing(cfg, s, ctx.names.session);
    } else {
      var id, data := ctx.names.session, form.answer.data;
      actions := [S.StampService(0, id, data), S.Store(0)];
      ServiceAlone(cfg, s, id, data);
      ValuesOf(w.sessions, id, Entry(NewServiceSession(id, data, ctx.now), ctx.now + cfg.sessionTimeout), {});
    }
  }

  lemma OtherSessions(cfg: Config, w: World, ctx: Context, request: Request)
    requires request.Authorize? || request.LogoutCallback? || request.ReloadClients?
    ensures Protocol.Apply(cfg, w, Step(ctx, request)).sessions == w.sessions
  {
    hide AuthorizeStep, RedirectToCaller, LoadAll;
    var w1 := Enter(w, ctx);
    match request
    case Authorize(q) => AuthorizeSpares(cfg, w1, ctx, q);
    case LogoutCallback =>
      if NamedSlot(w1.slots, ctx.cookie, w1.now).Some? {
        RedirectSpares(cfg, w1, ctx, CookieSlot(ctx.cookie), NamedSlot(w1.slots, ctx.cookie, w1.now).value);
      }
    case _ =>
  }

  lemma RequestAlone(cfg: Config, h: Trust, w: World, step: Step, s: S.Shared) returns (actions: seq<S.Action>)
    requires Sound(cfg) && Reached(cfg, h, w) && Ready(s, w, step.ctx) && Admissible(w, step) && Meets(h, step)
    ensures LeadsThere(cfg, s, actions, Values(Protocol.Apply(cfg, w, step).sessions), step.ctx.names.session)
  {
    hide Inv, Reached, Protocol.Apply, S.Run, LeadsThere, Admissible, Meets;
    var ctx, request := step.ctx, step.request;
    ReachedKeeps(cfg, h, w);
    FreshSession(cfg, h, w, step);
    FreshName(w, step);
    match request
    case Callback(q) => actions := CallbackStepAlone(cfg, h, w, ctx, s, q);
    case Token(form) => actions := TokenStepAlone(cfg, w, ctx, s, form);
    case Evict(slots, codes, sessions) =>
      EvictionsOnlyLose(cfg, w, ctx, slots, codes, sessions);
      actions := EvictAlone(cfg, w, ctx, s, sessions);
    case _ =>
      if AboutSession(request) {
        actions := SessionStepAlone(cfg, h, w, ctx, s, request);
      } else {
        OtherSessions(cfg, w, ctx, request);
        actions := [];
        Nothing(cfg, s, ctx.names.session);
      }
  }

  lemma EvictAlone(cfg: Config, w: World, ctx: Context, s: S.Shared, sessions: set<string>) returns (actions: seq<S.Action>)
    requires Ready(s, w, ctx)
    ensures LeadsThere(cfg, s, actions, Values(w.sessions - sessions), ctx.names.session)
  {
    actions := RemoveAll(cfg, s, sessions);
    assert Values(w.sessions - sessions) == Values(w.sessions) - sessions;
  }

  lemma FreshName(w: World, step: Step)
    requires Admissible(w, step)
    ensures step.ctx.names.session !in w.minted && w.now <= step.ctx.now
  {
    assert step.ctx.names.session in NameSet(step.ctx.names);
  }

  // ---------------------------------------------------------------- whole runs

  /** Some interleaving of single actions, from the empty store, ends with the sessions of the world. */
  ghost predicate Interleaved(cfg: Config, w: World) {
    exists actions :: Shows(S.Run(cfg, S.EMPTY, actions), w)
  }

  lemma StepIsInterleaved(cfg: Config, h: Trust, w: World, step: Step)
    requires Sound(cfg) && Reached(cfg, h, w) && Interleaved(cfg, w) && Admissible(w, step) && Meets(h, step)
    ensures Interleaved(cfg, Protocol.Apply(cfg, w, step))
  {
    hide Reached, Protocol.Apply, S.Run, Admissible, Meets;
    var before :| Shows(S.Run(cfg, S.EMPTY, before), w);
    var s := S.Run(cfg, S.EMPTY, before);
    FreshName(w, step);
    TickAlone(cfg, s, step.ctx.now);
    RunAll(cfg, S.EMPTY, before, [S.Tick(step.ctx.now)]);
    var ticked := s.(now := step.ctx.now);
    var actions := RequestAlone(cfg, h, w, step, ticked);
    RunAll(cfg, S.EMPTY, before + [S.Tick(step.ctx.now)], actions);
    Lifetimes.ClockAdvances(cfg, w, step);
    assert Shows(S.Run(cfg, S.EMPTY, before + [S.Tick(step.ctx.now)] + actions), Protocol.Apply(cfg, w, step));
  }

  /**
   * Every world that a run of whole requests reaches, an interleaving of single loads, clock readings, stores and
   * removals reaches too, with the same sessions and nobody in flight.
   */
  lemma RunsAreInterleavings(cfg: Config, h: Trust, w: World) returns (actions: seq<S.Action>)
    requires Sound(cfg) && Reached(cfg, h, w)
    ensures Shows(S.Run(cfg, S.EMPTY, actions), w)
  {
    hide Reached, Protocol.Apply, Admissible, Meets, Interleaved;
    var worlds := iset v: World | Reached(cfg, h, v) && Interleaved(cfg, v);
    EmptyIsReached(cfg, h);
    EmptyIsInterleaved(cfg);
    forall v, step | v in worlds && Admissible(v, step) && Meets(h, step) ensures Protocol.Apply(cfg, v, step) in worlds {
      StepReaches(cfg, h, v, step);
      StepIsInterleaved(cfg, h, v, step);
    }
    assert ClosedUnderSteps(cfg, h, worlds);
    ReachedIsIn(cfg, h, worlds, w);
    actions := WitnessOf(cfg, w);
  }

  lemma ReachedIsIn(cfg: Config, h: Trust, worlds: iset<World>, w: World)
    requires Reached(cfg, h, w) && EMPTY_WORLD in worlds && ClosedUnderSteps(cfg, h, worlds)
    ensures w in worlds
  {
  }

  lemma WitnessOf(cfg: Config, w: World) returns (actions: seq<S.Action>)
    requires Interleaved(cfg, w)
    ensures Shows(S.Run(cfg, S.EMPTY, actions), w)
  {
    actions :| Shows(S.Run(cfg, S.EMPTY, actions), w);
  }

  lemma EmptyIsInterleaved(cfg: Config)
    ensures Interleaved(cfg, EMPTY_WORLD)
  {
    assert Shows(S.Run(cfg, S.EMPTY, []), EMPTY_WORLD);
  }
}
