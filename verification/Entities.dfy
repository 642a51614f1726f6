/** The records kept in the three caches, and the decisions taken from their fields alone. */
module Entities {
  import opened Basics
  import opened Settings

  datatype Organization = Organization(id: string, code: string, name: string, blocked: bool)

  datatype Role = Role(userRoleID: string, code: string, organization: Option<Organization>, blocked: bool)

  datatype Right = Right(userRoleID: string, rightCode: string, levelCode: string)

  datatype Person = Person(
    subject: string,
    firstName: string,
    lastName: string,
    code: string,
    email: string,
    phoneNumber: string)

  /** What the authorizer answers about a user. */
  datatype UserData = UserData(
    person: Person,
    isServiceClient: bool,
    isTOSAccepted: bool,
    roles: seq<Role>,
    rights: seq<Right>)

  datatype SessionState =
    | Nothing
    | RequireAgreement
    | RequireRole
    | RequireOrganization
    | Authorized
    | BlockedUser
    | NotExist

  datatype Session = Session(
    id: string,
    state: SessionState,
    person: Person,
    role: Option<Role>,
    roles: seq<Role>,
    rights: seq<Right>,
    lastAccessed: Option<int>,
    isServiceClient: bool,
    isTOSAccepted: bool)
  {
    predicate IsActive() {
      state != Nothing
    }

    predicate IsAuthorized() {
      IsActive() && state == Authorized
    }

    predicate IsRoleRequired() {
      IsActive() && state == RequireRole
    }
  }

  /** An authorization request on its way through the provider; kept in the browser's slot. */
  datatype Correlation = Correlation(
    id: string,
    clientID: string,
    redirectURI: string,
    nonce: Option<string>,
    state: Option<string>,
    codeChallenge: Option<string>,
    codeChallengeMethod: Option<string>,
    errorCode: string,
    managedByProvider: bool,
    sessionCreated: Option<int>,
    tosTargetURI: Option<string>)

  datatype OneTimeToken = OneTimeToken(
    id: string,
    redirectURI: string,
    redirectURIs: seq<string>,
    sessionToken: string,
    sessionCreated: Option<int>)

  const NANOS := 1_000_000_000

  /** Nanoseconds to whole seconds, rounding toward zero as a Go integer conversion does. */
  function WholeSeconds(d: int): int {
    if d >= 0 then d / NANOS else -((-d) / NANOS)
  }

  function GetSecondsToLive(timeout: int, lastAccessed: Option<int>, now: int): int {
    match lastAccessed
    case None => -1
    case Some(t) => WholeSeconds(timeout - (now - t))
  }

  /** `n` seconds are `d` nanoseconds without their fraction. */
  predicate InSeconds(d: int, n: int) {
    if d >= 0 then n * 1_000_000_000 <= d < (n + 1) * 1_000_000_000
    else (n - 1) * 1_000_000_000 < d <= n * 1_000_000_000
  }

  /** The number of seconds that a client is told: what is left of the timeout since the last access, or -1. */
  lemma SecondsAreTold(timeout: int, lastAccessed: Option<int>, now: int)
    ensures
      var n := GetSecondsToLive(timeout, lastAccessed, now);
      if lastAccessed.Some? then InSeconds(timeout - (now - lastAccessed.value), n) else n == -1
  {
    if lastAccessed.Some? {
      var d := timeout - (now - lastAccessed.value);
      if d >= 0 {
        Quotient(d);
      } else {
        Quotient(-d);
      }
    }
  }

  lemma Quotient(x: int)
    requires x >= 0
    ensures x / NANOS * 1_000_000_000 <= x < (x / NANOS + 1) * 1_000_000_000
  {
    assert x == NANOS * (x / NANOS) + x % NANOS;
  }

  /** The session has been idle for at least a second more than the timeout, or was never accessed. */
  predicate Outlived(timeout: int, lastAccessed: Option<int>, now: int) {
    lastAccessed.None? || now - lastAccessed.value >= timeout + 1_000_000_000
  }

  /** A negative number is told exactly of outlived sessions. */
  lemma NegativeMeansOutlived(timeout: int, lastAccessed: Option<int>, now: int)
    ensures GetSecondsToLive(timeout, lastAccessed, now) < 0 <==> Outlived(timeout, lastAccessed, now)
  {
    SecondsAreTold(timeout, lastAccessed, now);
  }

  /** A later last access never shortens the lifetime that is reported. */
  lemma LaterAccessLivesLonger(timeout: int, a: int, b: int, now: int)
    requires a <= b
    ensures GetSecondsToLive(timeout, Some(a), now) <= GetSecondsToLive(timeout, Some(b), now)
  {
    var x, y := timeout - (now - a), timeout - (now - b);
    if x >= 0 {
      QuotientMonotone(x, y);
    } else if y < 0 {
      QuotientMonotone(-y, -x);
    }
  }

  lemma QuotientMonotone(x: int, y: int)
    requires 0 <= x <= y
    ensures x / NANOS <= y / NANOS
  {
    assert x == NANOS * (x / NANOS) + x % NANOS;
    assert y == NANOS * (y / NANOS) + y % NANOS;
  }

  /** Neither the role nor its organization is blocked. */
  predicate Unblocked(role: Role) {
    !role.blocked && (role.organization.None? || !role.organization.value.blocked)
  }

  /** The first role with the given relation identifier. */
  function FindRole(roles: seq<Role>, userRoleID: string): (r: Option<Role>)
    ensures r.None? <==> forall i | 0 <= i < |roles| :: roles[i].userRoleID != userRoleID
    ensures r.Some? ==> r.value in roles && r.value.userRoleID == userRoleID
  {
    if roles == [] then None
    else if roles[0].userRoleID == userRoleID then Some(roles[0])
    else FindRole(roles[1..], userRoleID)
  }

  /** Where a decision about terms and roles leaves a session. */
  datatype Placement = Placement(state: SessionState, role: Option<Role>)

  /** The one role of a user who has exactly one, when nothing blocks it. */
  function SingleRole(roles: seq<Role>): Option<Role> {
    if |roles| == 1 && Unblocked(roles[0]) then FindRole(roles, roles[0].userRoleID) else None
  }

  /** The decision at login. */
  function PlaceLogin(cfg: Config, data: UserData): Placement {
    if cfg.requiresTOS && !data.isTOSAccepted then Placement(RequireAgreement, None)
    else if !cfg.requiresRole then Placement(Authorized, None)
    else if |data.roles| == 0 then Placement(RequireRole, None)
    else if |data.roles| == 1 then
      if Unblocked(data.roles[0]) then Placement(Authorized, SingleRole(data.roles)) else Placement(RequireRole, None)
    else Placement(RequireRole, None)
  }

  /** The decision when the terms have just been accepted. */
  function PlaceTerms(cfg: Config, data: UserData): Placement {
    if !cfg.requiresRole then Placement(Authorized, None)
    else if |data.roles| == 0 then Placement(RequireRole, None)
    else if |data.roles| == 1 then Placement(Authorized, SingleRole(data.roles))
    else Placement(RequireRole, None)
  }

  /** The user's only role is blocked. */
  predicate OnlyRoleBlocked(roles: seq<Role>) {
    |roles| == 1 && !Unblocked(roles[0])
  }

  /** The two decisions part on exactly one kind of answer: roles are required and the only role is blocked. */
  lemma PlacementsAgree(cfg: Config, data: UserData)
    requires data.isTOSAccepted
    ensures PlaceLogin(cfg, data) == PlaceTerms(cfg, data) <==> !(cfg.requiresRole && OnlyRoleBlocked(data.roles))
  {
    if |data.roles| == 1 {
      assert FindRole(data.roles, data.roles[0].userRoleID) == Some(data.roles[0]);
    }
  }

  function NewSession(cfg: Config, id: string, data: UserData, now: int): Session {
    var place := PlaceLogin(cfg, data);
    Session(id, place.state, data.person, place.role, data.roles, data.rights, Some(now),
            data.isServiceClient, data.isTOSAccepted)
  }

  /** The single, unblocked role of the user. */
  predicate HasOneFreeRole(data: UserData) {
    && |data.roles| == 1 && !data.roles[0].blocked
    && (data.roles[0].organization.None? || !data.roles[0].organization.value.blocked)
  }

  /** The session carries what the authorizer answered, accessed at `now`. */
  predicate Mirrors(s: Session, data: UserData, now: int) {
    && s.person == data.person && s.roles == data.roles && s.rights == data.rights
    && s.isServiceClient == data.isServiceClient && s.isTOSAccepted == data.isTOSAccepted
    && s.lastAccessed == Some(now)
  }

  /** State and role of a new interactive session, case by case. */
  predicate PlacedByLogin(cfg: Config, s: Session, data: UserData) {
    && (cfg.requiresTOS && !data.isTOSAccepted ==> s.state == RequireAgreement && s.role == None)
    && (!(cfg.requiresTOS && !data.isTOSAccepted) ==>
          && (!cfg.requiresRole ==> s.state == Authorized && s.role == None)
          && (cfg.requiresRole && HasOneFreeRole(data) ==> s.state == Authorized && s.role == Some(data.roles[0]))
          && (cfg.requiresRole && !HasOneFreeRole(data) ==> s.state == RequireRole && s.role == None))
  }

  /** State and role of a session whose terms have just been accepted, case by case. */
  predicate PlacedByTerms(cfg: Config, s: Session, data: UserData) {
    && (!cfg.requiresRole ==> s.state == Authorized && s.role == None)
    && (cfg.requiresRole && |data.roles| == 1 ==>
          s.state == Authorized && s.role == if HasOneFreeRole(data) then Some(data.roles[0]) else None)
    && (cfg.requiresRole && |data.roles| != 1 ==> s.state == RequireRole && s.role == None)
  }

  lemma NewSessionIs(cfg: Config, id: string, data: UserData, now: int)
    ensures
      var s := NewSession(cfg, id, data, now);
      s.id == id && Mirrors(s, data, now) && PlacedByLogin(cfg, s, data)
  {
    if |data.roles| == 1 {
      assert FindRole(data.roles, data.roles[0].userRoleID) == Some(data.roles[0]);
    }
  }

  /** A service session is authorized at once; it gets the user's only role when nothing blocks it. */
  function NewServiceSession(id: string, data: UserData, now: int): Session {
    Session(id, Authorized, data.person, SingleRole(data.roles), data.roles, data.rights, Some(now),
            data.isServiceClient, data.isTOSAccepted)
  }

  lemma NewServiceSessionIs(id: string, data: UserData, now: int)
    ensures
      var s := NewServiceSession(id, data, now);
      && s.id == id && Mirrors(s, data, now) && s.state == Authorized
      && s.role == if HasOneFreeRole(data) then Some(data.roles[0]) else None
  {
    if |data.roles| == 1 {
      assert FindRole(data.roles, data.roles[0].userRoleID) == Some(data.roles[0]);
    }
  }

  /** The session after the authorizer answered an acceptance of the terms. */
  function AfterTerms(cfg: Config, session: Session, data: UserData, now: int): Session {
    var current := session.(
      person := data.person, roles := data.roles, rights := data.rights,
      isServiceClient := data.isServiceClient, isTOSAccepted := data.isTOSAccepted, lastAccessed := Some(now));
    if data.isTOSAccepted then
      var place := PlaceTerms(cfg, data);
      current.(state := place.state, role := place.role)
    else current
  }

  lemma AfterTermsIs(cfg: Config, session: Session, data: UserData, now: int)
    ensures
      var s := AfterTerms(cfg, session, data, now);
      && s.id == session.id && Mirrors(s, data, now)
      && (data.isTOSAccepted ==> PlacedByTerms(cfg, s, data))
      && (!data.isTOSAccepted ==> s.state == session.state && s.role == session.role)
  {
    if |data.roles| == 1 {
      assert FindRole(data.roles, data.roles[0].userRoleID) == Some(data.roles[0]);
    }
  }

  /** The session after role `role` was chosen. */
  function AfterRole(session: Session, role: Role): Session {
    session.(role := Some(role), state := if session.state == RequireRole then Authorized else session.state)
  }

  /** The role a request may switch to: it exists, it is not blocked, and the session is in a state that allows a choice. */
  function ChosenRole(session: Session, roleID: Option<string>): Option<Role> {
    if (!session.IsRoleRequired() && !session.IsAuthorized()) || roleID.None? then None
    else
      var role := FindRole(session.roles, roleID.value);
      if role.Some? && Unblocked(role.value) then role else None
  }

  /** The `i`-th role is the first one with the ID, and neither it nor its organization is blocked. */
  predicate IsChoice(roles: seq<Role>, roleID: string, i: nat) {
    && i < |roles| && roles[i].userRoleID == roleID && (forall j | 0 <= j < i :: roles[j].userRoleID != roleID)
    && !roles[i].blocked && (roles[i].organization.None? || !roles[i].organization.value.blocked)
  }

  lemma {:induction false} FindRoleIsFirst(roles: seq<Role>, roleID: string, i: nat)
    requires i < |roles| && roles[i].userRoleID == roleID && forall j | 0 <= j < i :: roles[j].userRoleID != roleID
    ensures FindRole(roles, roleID) == Some(roles[i])
  {
    if i > 0 {
      FindRoleIsFirst(roles[1..], roleID, i - 1);
    }
  }

  lemma {:induction false} FoundRoleHasIndex(roles: seq<Role>, roleID: string) returns (i: nat)
    requires FindRole(roles, roleID).Some?
    ensures i < |roles| && roles[i].userRoleID == roleID && forall j | 0 <= j < i :: roles[j].userRoleID != roleID
    ensures FindRole(roles, roleID) == Some(roles[i])
  {
    i := 0;
    if roles[0].userRoleID != roleID {
      var k := FoundRoleHasIndex(roles[1..], roleID);
      i := k + 1;
      forall j | 0 <= j < i ensures roles[j].userRoleID != roleID {
        if j > 0 {
          assert roles[j] == roles[1..][j - 1];
        }
      }
    }
  }

  /** A role choice is permitted exactly for a requested, first, unblocked role in a state that awaits or has a role. */
  lemma ChosenRoleIs(session: Session, roleID: Option<string>)
    ensures ChosenRole(session, roleID).Some? <==>
      session.state in {RequireRole, Authorized} && roleID.Some? && exists i: nat :: IsChoice(session.roles, roleID.value, i)
    ensures forall i: nat | ChosenRole(session, roleID).Some? && IsChoice(session.roles, roleID.value, i) ::
      ChosenRole(session, roleID).value == session.roles[i]
  {
    if roleID.Some? {
      forall i: nat | IsChoice(session.roles, roleID.value, i)
        ensures FindRole(session.roles, roleID.value) == Some(session.roles[i])
      {
        FindRoleIsFirst(session.roles, roleID.value, i);
      }
      if FindRole(session.roles, roleID.value).Some? {
        var i := FoundRoleHasIndex(session.roles, roleID.value);
        if ChosenRole(session, roleID).Some? {
          assert IsChoice(session.roles, roleID.value, i);
        }
      }
    }
  }
}
