/**
 * The session cache under concurrency: a request works on the copy it loaded, reads the clock into it, and writes it back
 * whole some time later, so its write may be based on an old version. What that costs, and what survives it.
 */
module SharedSessions {
  import opened Basics
  import opened Settings
  import opened Entities
  import opened Protocol
  import opened Invariants

  /**
   * What a request loads a session for: to read it or log it out, to extend it, to accept the terms, or to choose a role.
   * A keep-alive loads twice, once in the bearer middleware as a reader and once in `Extend` as a keeper.
   */
  datatype Kind = Reader | Keeper | Accepter | Chooser(roleID: Option<string>)

  /** A request in flight: with the copy it loaded, or with the version it is about to store. */
  datatype Flight = Loaded(kind: Kind, session: Session) | Ready(session: Session)

  /** The stored sessions, the requests in flight, the clock and the session names drawn so far. */
  datatype Shared = Shared(store: map<string, Session>, flights: map<nat, Flight>, now: int, minted: set<string>)

  /** Single steps of requests; a store that fails and a request that gives up are a `Finish`. */
  datatype Action =
    | Tick(time: int)
    | Load(worker: nat, kind: Kind, id: string)
    | StampAccess(worker: nat)
    | StampTerms(worker: nat, data: UserData)
    | ChooseRole(worker: nat)
    | StampLogin(worker: nat, id: string, data: UserData)
    | StampService(worker: nat, id: string, data: UserData)
    | Store(worker: nat)
    | Finish(worker: nat)
    | Remove(id: string)

  const EMPTY := Shared(map[], map[], 0, {})

  /** The worker has loaded a session for the given purpose. */
  predicate HasLoaded(s: Shared, w: nat, kind: Kind) {
    w in s.flights && s.flights[w].Loaded? && s.flights[w].kind == kind
  }

  /** The copy that a role choice loaded passes the terms gate and permits the choice. */
  predicate Permits(cfg: Config, session: Session, roleID: Option<string>) {
    TermsGateOpen(cfg, session) && ChosenRole(session, roleID).Some?
  }

  predicate Enabled(cfg: Config, s: Shared, a: Action) {
    match a
    case Tick(time) => s.now <= time
    case Load(w, _, id) => w !in s.flights && id in s.store
    case StampAccess(w) => HasLoaded(s, w, Keeper)
    case StampTerms(w, _) => HasLoaded(s, w, Accepter)
    case ChooseRole(w) =>
      && w in s.flights && s.flights[w].Loaded? && s.flights[w].kind.Chooser?
      && Permits(cfg, s.flights[w].session, s.flights[w].kind.roleID)
    case StampLogin(w, id, _) => w !in s.flights && id !in s.minted
    case StampService(w, id, _) => w !in s.flights && id !in s.minted
    case Store(w) => w in s.flights && s.flights[w].Ready?
    case Finish(w) => w in s.flights
    case Remove(_) => true
  }

  function Fly(s: Shared, w: nat, flight: Flight): Shared {
    s.(flights := s.flights[w := flight])
  }

  function Take(cfg: Config, s: Shared, a: Action): Shared
    requires Enabled(cfg, s, a)
  {
    match a
    case Tick(time) => s.(now := time)
    case Load(w, kind, id) => Fly(s, w, Loaded(kind, s.store[id]))
    case StampAccess(w) => Fly(s, w, Ready(s.flights[w].session.(lastAccessed := Some(s.now))))
    case StampTerms(w, data) => Fly(s, w, Ready(AfterTerms(cfg, s.flights[w].session, data, s.now)))
    case ChooseRole(w) =>
      var copy := s.flights[w].session;
      Fly(s, w, Ready(AfterRole(copy, ChosenRole(copy, s.flights[w].kind.roleID).value)))
    case StampLogin(w, id, data) => Fly(s, w, Ready(NewSession(cfg, id, data, s.now))).(minted := s.minted + {id})
    case StampService(w, id, data) => Fly(s, w, Ready(NewServiceSession(id, data, s.now))).(minted := s.minted + {id})
    case Store(w) =>
      var session := s.flights[w].session;
      s.(store := s.store[session.id := session], flights := s.flights - {w})
    case Finish(w) => s.(flights := s.flights - {w})
    case Remove(id) => s.(store := s.store - {id})
  }

  /** An action that nobody can take changes nothing, so every sequence of actions is an interleaving. */
  function Apply(cfg: Config, s: Shared, a: Action): Shared {
    if Enabled(cfg, s, a) then Take(cfg, s, a) else s
  }

  function Run(cfg: Config, s: Shared, actions: seq<Action>): Shared {
    if actions == [] then s else Apply(cfg, Run(cfg, s, actions[..|actions| - 1]), actions[|actions| - 1])
  }

  // ---------------------------------------------------------------- what survives

  /** Every stored or in-flight session is in one of the three states and obeys what its state says. */
  ghost predicate AllPlaced(cfg: Config, s: Shared) {
    && (forall id | id in s.store :: WellPlaced(cfg, s.store[id]))
    && (forall w | w in s.flights :: WellPlaced(cfg, s.flights[w].session))
  }

  lemma ApplyKeeps(cfg: Config, s: Shared, a: Action)
    requires AllPlaced(cfg, s)
    ensures AllPlaced(cfg, Apply(cfg, s, a))
  {
    hide WellPlaced, AfterTerms, AfterRole, NewSession, NewServiceSession;
    if Enabled(cfg, s, a) {
      match a
      case StampAccess(w) => AccessedPlaced(cfg, s.flights[w].session, s.now);
      case StampTerms(w, data) => TermsPlaced(cfg, s.flights[w].session, data, s.now);
      case ChooseRole(w) => RolePlaced(cfg, s.flights[w].session, s.flights[w].kind.roleID);
      case StampLogin(w, id, data) => NewPlaced(cfg, id, data, s.now);
      case StampService(w, id, data) => NewPlaced(cfg, id, data, s.now);
      case _ =>
    }
  }

  lemma AccessedPlaced(cfg: Config, session: Session, now: int)
    requires WellPlaced(cfg, session)
    ensures WellPlaced(cfg, session.(lastAccessed := Some(now)))
  {
  }

  lemma TermsPlaced(cfg: Config, session: Session, data: UserData, now: int)
    requires WellPlaced(cfg, session)
    ensures WellPlaced(cfg, AfterTerms(cfg, session, data, now))
  {
  }

  lemma RolePlaced(cfg: Config, session: Session, roleID: Option<string>)
    requires WellPlaced(cfg, session) && Permits(cfg, session, roleID)
    ensures WellPlaced(cfg, AfterRole(session, ChosenRole(session, roleID).value))
  {
  }

  lemma NewPlaced(cfg: Config, id: string, data: UserData, now: int)
    ensures WellPlaced(cfg, NewSession(cfg, id, data, now)) && WellPlaced(cfg, NewServiceSession(id, data, now))
  {
  }

  /**
   * From an empty store, in every interleaving of logins, service grants, terms answers, role choices, keep-alives
   * and removals, each stored or in-flight session awaits the agreement only with terms required, not accepted and no
   * role; awaits a role only with roles required and none; and with a role is authorized and unblocked.
   */
  lemma {:induction false} StaleWritesKeepTheRules(cfg: Config, actions: seq<Action>)
    ensures AllPlaced(cfg, Run(cfg, EMPTY, actions))
  {
    if actions != [] {
      StaleWritesKeepTheRules(cfg, actions[..|actions| - 1]);
      ApplyKeeps(cfg, Run(cfg, EMPTY, actions[..|actions| - 1]), actions[|actions| - 1]);
    }
  }

  /** The session has a name that was drawn, and an access time that the clock has reached. */
  predicate Dated(session: Session, s: Shared) {
    session.id in s.minted && session.lastAccessed.Some? && session.lastAccessed.value <= s.now
  }

  ghost predicate AllDated(s: Shared) {
    && (forall id | id in s.store :: s.store[id].id == id && Dated(s.store[id], s))
    && (forall w | w in s.flights :: Dated(s.flights[w].session, s))
  }

  lemma ApplyDates(cfg: Config, s: Shared, a: Action)
    requires AllDated(s)
    ensures AllDated(Apply(cfg, s, a))
  {
    hide PlaceTerms, PlaceLogin, SingleRole, ChosenRole, TermsGateOpen;
  }

  lemma {:induction false} RunDates(cfg: Config, s: Shared, actions: seq<Action>)
    requires AllDated(s)
    ensures AllDated(Run(cfg, s, actions))
  {
    hide AllDated, Apply;
    if actions != [] {
      RunDates(cfg, s, actions[..|actions| - 1]);
      ApplyDates(cfg, Run(cfg, s, actions[..|actions| - 1]), actions[|actions| - 1]);
    }
  }

  lemma ClockAdvances(cfg: Config, s: Shared, a: Action)
    ensures s.now <= Apply(cfg, s, a).now && s.minted <= Apply(cfg, s, a).minted
  {
  }

  // ---------------------------------------------------------------- when an access time goes back

  /** The stored access time of a session. */
  function Access(s: Shared, id: string): Option<int> {
    if id in s.store then s.store[id].lastAccessed else None
  }

  function Later(a: Option<int>, b: Option<int>): Option<int> {
    if a.None? then b else if b.None? || b.value <= a.value then a else b
  }

  /** The latest access time that was ever stored for the session in the run. */
  function Peak(cfg: Config, s: Shared, actions: seq<Action>, id: string): Option<int> {
    if actions == [] then Access(s, id)
    else Later(Peak(cfg, s, actions[..|actions| - 1], id), Access(Run(cfg, s, actions), id))
  }

  predicate Behind(access: Option<int>, peak: Option<int>) {
    access.Some? && peak.Some? && access.value < peak.value
  }

  /** At some point of the run the stored access time is behind an earlier one. */
  predicate EverBehind(cfg: Config, s: Shared, actions: seq<Action>, id: string) {
    actions != [] &&
    (EverBehind(cfg, s, actions[..|actions| - 1], id) || Behind(Access(Run(cfg, s, actions), id), Peak(cfg, s, actions, id)))
  }

  /** The action stores a version of the session whose access time is behind `peak`. */
  predicate Rewinds(s: Shared, a: Action, id: string, peak: Option<int>) {
    && a.Store? && a.worker in s.flights && s.flights[a.worker].Ready?
    && s.flights[a.worker].session.id == id && Behind(s.flights[a.worker].session.lastAccessed, peak)
  }

  predicate EverRewinds(cfg: Config, s: Shared, actions: seq<Action>, id: string) {
    actions != [] &&
    var front := actions[..|actions| - 1];
    EverRewinds(cfg, s, front, id) || Rewinds(Run(cfg, s, front), actions[|actions| - 1], id, Peak(cfg, s, front, id))
  }

  /** One action puts the access time behind `peak` exactly when it stores a version from before it. */
  lemma OneActionRewindsWhen(cfg: Config, s: Shared, a: Action, id: string, peak: Option<int>)
    requires AllDated(s)
    requires Access(s, id).Some? ==> Access(s, id) == peak
    ensures Behind(Access(Apply(cfg, s, a), id), Later(peak, Access(Apply(cfg, s, a), id))) <==> Rewinds(s, a, id, peak)
  {
    hide AfterTerms, AfterRole, NewSession, NewServiceSession, Permits;
  }

  /** The peak is an access time that the clock has reached, of a name that was drawn, and at least the stored one. */
  lemma {:induction false} PeakIsReached(cfg: Config, s: Shared, actions: seq<Action>, id: string)
    requires AllDated(s)
    ensures Peak(cfg, s, actions, id).Some? ==>
      Peak(cfg, s, actions, id).value <= Run(cfg, s, actions).now && id in Run(cfg, s, actions).minted
    ensures Access(Run(cfg, s, actions), id).Some? ==>
      Peak(cfg, s, actions, id).Some? && Access(Run(cfg, s, actions), id).value <= Peak(cfg, s, actions, id).value
  {
    hide Apply;
    RunDates(cfg, s, actions);
    if actions != [] {
      PeakIsReached(cfg, s, actions[..|actions| - 1], id);
      ClockAdvances(cfg, Run(cfg, s, actions[..|actions| - 1]), actions[|actions| - 1]);
    }
  }

  /**
   * In every interleaving, the stored access time of a session falls behind an earlier one exactly when a request stores
   * a version that was dated before that: a role choice by the time of its load, a keep-alive or terms answer by its stamp.
   */
  lemma {:induction false} AccessGoesBackWhen(cfg: Config, s: Shared, actions: seq<Action>, id: string)
    requires AllDated(s)
    ensures EverBehind(cfg, s, actions, id) <==> EverRewinds(cfg, s, actions, id)
  {
    hide AllDated, Apply, Rewinds, Access;
    if actions != [] {
      var front, last := actions[..|actions| - 1], actions[|actions| - 1];
      AccessGoesBackWhen(cfg, s, front, id);
      if !EverBehind(cfg, s, front, id) {
        RunDates(cfg, s, front);
        PeakIsReached(cfg, s, front, id);
        OneActionRewindsWhen(cfg, Run(cfg, s, front), last, id, Peak(cfg, s, front, id));
      }
    }
  }

  // ---------------------------------------------------------------- requests that do not overlap

  /** The request can still store a session: it is about to, or its copy and purpose permit it. */
  predicate CanStillWrite(cfg: Config, f: Flight) {
    match f
    case Ready(_) => true
    case Loaded(Reader, _) => false
    case Loaded(Chooser(roleID), session) => Permits(cfg, session, roleID)
    case Loaded(_, _) => true
  }

  predicate Writes(cfg: Config, s: Shared, w: nat, id: string) {
    w in s.flights && s.flights[w].session.id == id && CanStillWrite(cfg, s.flights[w])
  }

  ghost predicate OneWriter(cfg: Config, s: Shared, id: string) {
    forall v, w | Writes(cfg, s, v, id) && Writes(cfg, s, w, id) :: v == w
  }

  /** At no point of the run two requests in flight can both store the session. */
  ghost predicate NeverOverlaps(cfg: Config, s: Shared, actions: seq<Action>, id: string) {
    && OneWriter(cfg, Run(cfg, s, actions), id)
    && (actions != [] ==> NeverOverlaps(cfg, s, actions[..|actions| - 1], id))
  }

  /** No request that can still write holds a version from before `peak`. */
  ghost predicate AllRecent(cfg: Config, s: Shared, id: string, peak: Option<int>) {
    forall w | Writes(cfg, s, w, id) :: !Behind(s.flights[w].session.lastAccessed, peak)
  }

  lemma StayRecent(cfg: Config, s: Shared, a: Action, id: string, peak: Option<int>)
    requires AllDated(s) && OneWriter(cfg, s, id) && AllRecent(cfg, s, id, peak)
    requires Access(s, id).Some? ==> Access(s, id) == peak
    requires peak.Some? ==> peak.value <= s.now && id in s.minted
    ensures AllRecent(cfg, Apply(cfg, s, a), id, Later(peak, Access(Apply(cfg, s, a), id))) && !Rewinds(s, a, id, peak)
  {
    hide PlaceTerms, PlaceLogin, SingleRole, ChosenRole, TermsGateOpen;
    var after := Apply(cfg, s, a);
    if Enabled(cfg, s, a) && (a.Store? || a.ChooseRole?) {
      assert Writes(cfg, s, a.worker, s.flights[a.worker].session.id);
    }
    var now := Later(peak, Access(after, id));
    forall w | Writes(cfg, after, w, id) ensures !Behind(after.flights[w].session.lastAccessed, now) {
      if w in s.flights && after.flights[w] == s.flights[w] {
        assert Writes(cfg, s, w, id);
      }
    }
  }

  lemma {:induction false} RunStaysRecent(cfg: Config, actions: seq<Action>, id: string)
    requires NeverOverlaps(cfg, EMPTY, actions, id)
    ensures !EverRewinds(cfg, EMPTY, actions, id)
    ensures AllRecent(cfg, Run(cfg, EMPTY, actions), id, Peak(cfg, EMPTY, actions, id))
  {
    hide Apply, Rewinds, Access, OneWriter, AllRecent;
    assert AllDated(EMPTY);
    if actions == [] {
      NobodyIsRecent(cfg, id, Peak(cfg, EMPTY, [], id));
    } else {
      var front, last := actions[..|actions| - 1], actions[|actions| - 1];
      RunStaysRecent(cfg, front, id);
      RunDates(cfg, EMPTY, front);
      PeakIsReached(cfg, EMPTY, front, id);
      AccessGoesBackWhen(cfg, EMPTY, front, id);
      NotBehind(cfg, front, id);
      StayRecent(cfg, Run(cfg, EMPTY, front), last, id, Peak(cfg, EMPTY, front, id));
    }
  }

  lemma NobodyIsRecent(cfg: Config, id: string, peak: Option<int>)
    ensures AllRecent(cfg, EMPTY, id, peak)
  {
  }

  /** Where nothing ever was behind, the stored access time is the peak. */
  lemma NotBehind(cfg: Config, actions: seq<Action>, id: string)
    requires !EverBehind(cfg, EMPTY, actions, id)
    ensures
      var access := Access(Run(cfg, EMPTY, actions), id);
      access.Some? ==> access == Peak(cfg, EMPTY, actions, id)
  {
    hide Apply;
    assert AllDated(EMPTY);
    PeakIsReached(cfg, EMPTY, actions, id);
  }

  /** In every interleaving in which no two requests that can store the session overlap, its access time never goes back. */
  lemma WithoutOverlapNothingGoesBack(cfg: Config, actions: seq<Action>, id: string)
    requires NeverOverlaps(cfg, EMPTY, actions, id)
    ensures !EverBehind(cfg, EMPTY, actions, id)
  {
    hide EverBehind, EverRewinds, NeverOverlaps, Run;
    assert AllDated(EMPTY);
    RunStaysRecent(cfg, actions, id);
    AccessGoesBackWhen(cfg, EMPTY, actions, id);
  }

  /** Two keep-alives that cross: the one stamped first stores last, and the access time goes back. */
  lemma CrossingKeepAlivesRewindAccess(cfg: Config, s: Shared, id: string, a: nat, b: nat, early: int, late: int)
    requires id in s.store && s.store[id].id == id && a != b && a !in s.flights && b !in s.flights
    requires s.now <= early < late
    ensures
      var loaded := Apply(cfg, Apply(cfg, s, Load(a, Keeper, id)), Load(b, Keeper, id));
      var first := Apply(cfg, Apply(cfg, loaded, Tick(early)), StampAccess(a));
      var second := Apply(cfg, Apply(cfg, first, Tick(late)), StampAccess(b));
      var stored := Apply(cfg, second, Store(b));
      && Access(stored, id) == Some(late) && Rewinds(stored, Store(a), id, Some(late))
      && Access(Apply(cfg, stored, Store(a)), id) == Some(early)
  {
  }

  /** A role choice that loaded its copy before a keep-alive stored its time puts the older access time back. */
  lemma StaleRoleChoiceRewindsAccess(cfg: Config, s: Shared, id: string, chooser: nat, keeper: nat, roleID: string, time: int)
    requires id in s.store && s.store[id].id == id && chooser != keeper && chooser !in s.flights && keeper !in s.flights
    requires Permits(cfg, s.store[id], Some(roleID)) && s.now <= time
    requires s.store[id].lastAccessed.Some? && s.store[id].lastAccessed.value < time
    ensures
      var chosen := Apply(cfg, Apply(cfg, s, Load(chooser, Chooser(Some(roleID)), id)), ChooseRole(chooser));
      var stamped := Apply(cfg, Apply(cfg, Apply(cfg, chosen, Load(keeper, Keeper, id)), Tick(time)), StampAccess(keeper));
      var kept := Apply(cfg, stamped, Store(keeper));
      && Access(kept, id) == Some(time) && Rewinds(kept, Store(chooser), id, Some(time))
      && Access(Apply(cfg, kept, Store(chooser)), id) == s.store[id].lastAccessed
  {
    hide Permits, ChosenRole, TermsGateOpen;
  }

  // ---------------------------------------------------------------- when a removal is undone

  /** A request that is not finished and can still write holds the session. */
  ghost predicate MayComeBack(cfg: Config, s: Shared, id: string) {
    exists w :: Writes(cfg, s, w, id)
  }

  /** A session that is not stored gets stored by one action exactly if a request stores its version of it. */
  lemma RemovedComesBackWhen(cfg: Config, s: Shared, a: Action, id: string)
    requires id !in s.store
    ensures id in Apply(cfg, s, a).store <==>
      a.Store? && a.worker in s.flights && s.flights[a.worker].Ready? && s.flights[a.worker].session.id == id
  {
    hide AfterTerms, AfterRole, NewSession, NewServiceSession, Permits;
  }

  /** Nobody loads a removed session, and nobody else draws its name. */
  lemma GoneStaysGone(cfg: Config, s: Shared, a: Action, id: string)
    requires AllDated(s) && id !in s.store && id in s.minted && !MayComeBack(cfg, s, id)
    ensures id !in Apply(cfg, s, a).store && !MayComeBack(cfg, Apply(cfg, s, a), id)
  {
    hide PlaceTerms, PlaceLogin, SingleRole, ChosenRole, TermsGateOpen;
    RemovedComesBackWhen(cfg, s, a, id);
    var after := Apply(cfg, s, a);
    if Enabled(cfg, s, a) && (a.Store? || a.StampAccess? || a.StampTerms? || a.ChooseRole?) {
      assert Writes(cfg, s, a.worker, s.flights[a.worker].session.id);
    }
    forall w | w in after.flights ensures !Writes(cfg, after, w, id) {
      if w in s.flights {
        assert !Writes(cfg, s, w, id);
      }
    }
  }

  lemma {:induction false} GoneRuns(cfg: Config, s: Shared, actions: seq<Action>, id: string)
    requires AllDated(s) && id !in s.store && id in s.minted && !MayComeBack(cfg, s, id)
    ensures
      var after := Run(cfg, s, actions);
      id !in after.store && !MayComeBack(cfg, after, id) && id in after.minted
  {
    hide AllDated, Apply, MayComeBack;
    if actions != [] {
      var front, last := actions[..|actions| - 1], actions[|actions| - 1];
      GoneRuns(cfg, s, front, id);
      RunDates(cfg, s, front);
      GoneStaysGone(cfg, Run(cfg, s, front), last, id);
      ClockAdvances(cfg, Run(cfg, s, front), last);
    }
  }

  const NO_DATA := UserData(Person("", "", "", "", "", ""), false, false, [], [])

  /** The steps that are left to a request that can still write. */
  function WayToStore(f: Flight, w: nat): seq<Action> {
    match f
    case Ready(_) => [Store(w)]
    case Loaded(Accepter, _) => [StampTerms(w, NO_DATA), Store(w)]
    case Loaded(Chooser(_), _) => [ChooseRole(w), Store(w)]
    case Loaded(_, _) => [StampAccess(w), Store(w)]
  }

  lemma RunOfTwo(cfg: Config, s: Shared, a: Action, b: Action)
    ensures Run(cfg, s, [a]) == Apply(cfg, s, a)
    ensures Run(cfg, s, [a, b]) == Apply(cfg, Apply(cfg, s, a), b)
  {
    hide Apply;
    assert [a][..0] == [] && [a, b][..1] == [a];
  }

  /** Such a request brings the session back by storing it. */
  lemma WritersBringBack(cfg: Config, s: Shared, w: nat, id: string)
    requires Writes(cfg, s, w, id)
    ensures id in Run(cfg, s, WayToStore(s.flights[w], w)).store
  {
    hide Run, PlaceTerms, ChosenRole, TermsGateOpen;
    var f := s.flights[w];
    RunOfTwo(cfg, s, WayToStore(f, w)[0], Store(w));
  }

  /** In no interleaving that follows is the session stored again. */
  ghost predicate StaysGone(cfg: Config, s: Shared, id: string) {
    forall actions: seq<Action> :: id !in Run(cfg, s, actions).store
  }

  /**
   * A session that is gone stays gone in every interleaving that follows exactly when no unfinished request that can
   * still write holds it: a logout is undone by a keep-alive, terms answer or permitted role choice that had loaded the
   * session before and stores it after, and not by readers, by other logouts or by requests that are over.
   */
  lemma RemovalIsFinalWhen(cfg: Config, s: Shared, id: string)
    requires AllDated(s) && id !in s.store && id in s.minted
    ensures StaysGone(cfg, s, id) <==> !MayComeBack(cfg, s, id)
  {
    hide AllDated, Run, Writes;
    if w :| Writes(cfg, s, w, id) {
      WritersBringBack(cfg, s, w, id);
      assert !StaysGone(cfg, s, id);
    } else {
      forall actions: seq<Action> ensures id !in Run(cfg, s, actions).store {
        GoneRuns(cfg, s, actions, id);
      }
    }
  }

  /** A keep-alive that loaded its copy before a logout removed the session stores it again. */
  lemma StaleKeepAliveUndoesLogout(cfg: Config, s: Shared, id: string, keeper: nat)
    requires id in s.store && s.store[id].id == id && keeper !in s.flights
    ensures
      var removed := Apply(cfg, Apply(cfg, s, Load(keeper, Keeper, id)), Remove(id));
      && id !in removed.store && MayComeBack(cfg, removed, id)
      && id in Apply(cfg, Apply(cfg, removed, StampAccess(keeper)), Store(keeper)).store
  {
    var removed := Apply(cfg, Apply(cfg, s, Load(keeper, Keeper, id)), Remove(id));
    assert Writes(cfg, removed, keeper, id);
  }
}
