/**
 * What happens at the borders of the service: accepted requests, what the environment answers to a login, redirects,
 * stored and audited sessions, issued tokens.
 */
module Traces {
  import opened Basics
  import opened Settings
  import opened Entities
  import opened Clients

  // ---------------------------------------------------------------- what the environment answers

  /**
   * Which cache and audit operations of a request succeed. `slotWrite` and `slotRewrite` cover the read and the
   * write inside the first and second `Set` of a request. An operation that fails changes nothing.
   */
  datatype Health = Health(
    slotRead: bool,
    slotWrite: bool,
    slotRewrite: bool,
    slotDelete: bool,
    codeRead: bool,
    codeWrite: bool,
    codeDelete: bool,
    sessionRead: bool,
    sessionWrite: bool,
    sessionDelete: bool,
    audit: bool)

  /** The authorizer's answer; an error carries a code when it is an authorization error. */
  datatype Answer = Granted(data: UserData) | Denied(code: Option<string>)

  /** What the provider's callback yields. */
  datatype ProviderResult =
    | Rejected(code: Option<string>)
    | Authenticated(managed: bool, answer: Answer)

  /** Everything outside the service that decides how a login ends: its flow's URI, the answers, the operations. */
  datatype Outcome = Outcome(redirectURI: string, result: ProviderResult, ok: Health)

  // ---------------------------------------------------------------- events

  /** The parameters of an accepted `/authorize` and the redirect URIs registered for its client at that time. */
  datatype Acceptance = Acceptance(clientID: string, registered: seq<string>, redirectURI: string, state: string)

  /** What a redirect carries: an error, the session ID itself, or a one-time code for it. */
  datatype Issue =
    | Refusal
    | Direct(session: string, managed: bool)
    | Code(code: string, session: string)

  datatype Event =
    | Accepted(slot: string, request: Acceptance)
    | Redirected(slot: string, url: Url, issue: Issue)
    | Answered(session: string, outcome: Outcome)
    | SessionStored(session: string, service: bool)
    | LoginAudited(session: string)
    | ServiceAudited(session: string)
    | CodeExchanged(code: string, redirectURI: string, token: string, expiresIn: int)
    | ServiceTokenIssued(session: string, expiresIn: int)
    | TermsPlaced(session: string, roles: seq<Role>)
    | RoleChosen(session: string)

  datatype Trace = Start | After(past: Trace, event: Event)

  /** `p` is the trace at some earlier time of `t`. */
  predicate IsPrefix(p: Trace, t: Trace) {
    p == t || (t.After? && IsPrefix(p, t.past))
  }

  /** The session that a redirect hands over. */
  function HandedOver(issue: Issue): Option<string> {
    match issue
    case Refusal => None
    case Direct(s, _) => Some(s)
    case Code(_, s) => Some(s)
  }

  // ---------------------------------------------------------------- counting deliveries

  function Redirects(t: Trace, session: string): nat {
    match t
    case Start => 0
    case After(past, e) =>
      Redirects(past, session) + if e.Redirected? && HandedOver(e.issue) == Some(session) then 1 else 0
  }

  function Exchanges(t: Trace, session: string): nat {
    match t
    case Start => 0
    case After(past, e) => Exchanges(past, session) + if e.CodeExchanged? && e.token == session then 1 else 0
  }

  /** Every session that was put into a redirect or handed out for a code. */
  function Delivered(t: Trace): set<string> {
    match t
    case Start => {}
    case After(past, e) =>
      Delivered(past)
      + (if e.Redirected? && HandedOver(e.issue).Some? then {HandedOver(e.issue).value} else {})
      + (if e.CodeExchanged? then {e.token} else {})
  }

  lemma {:induction false} UndeliveredCountsZero(t: Trace, session: string)
    requires session !in Delivered(t)
    ensures Redirects(t, session) == 0 && Exchanges(t, session) == 0
  {
    if t.After? {
      UndeliveredCountsZero(t.past, session);
    }
  }

  // ---------------------------------------------------------------- sessions

  function Stored(t: Trace): set<string> {
    match t
    case Start => {}
    case After(past, e) => Stored(past) + if e.SessionStored? then {e.session} else {}
  }

  function ServiceStored(t: Trace): set<string> {
    match t
    case Start => {}
    case After(past, e) => ServiceStored(past) + if e.SessionStored? && e.service then {e.session} else {}
  }

  function Audited(t: Trace): set<string> {
    match t
    case Start => {}
    case After(past, e) => Audited(past) + if e.LoginAudited? then {e.session} else {}
  }

  // ---------------------------------------------------------------- how logins end

  /** The answer of the environment to the login of a session. */
  function OutcomeOf(t: Trace, session: string): Option<Outcome> {
    match t
    case Start => None
    case After(past, e) => if e.Answered? && e.session == session then Some(e.outcome) else OutcomeOf(past, session)
  }

  predicate NeedsTerms(cfg: Config, data: UserData) {
    cfg.requiresTOS && !data.isTOSAccepted
  }

  /** Where the login's redirect goes: to the terms page if the terms are missing. */
  function Target(cfg: Config, redirectURI: string, data: UserData): string {
    var page := BuildTOSRedirect(cfg, redirectURI);
    if NeedsTerms(cfg, data) && page.Some? && |page.value| > 0 then page.value else redirectURI
  }

  /**
   * The ways a login ends: before its session is in the slot, with an error that is not compensated, with the session
   * deleted and an error sent, or with a stored and audited session.
   */
  datatype LoginEnd = NotStarted | Unfinished | Compensated | Completed

  function EndOf(cfg: Config, redirectURI: string, ok: Health, answer: Answer): LoginEnd {
    if answer.Denied? || !ok.slotWrite then NotStarted
    else if NeedsTerms(cfg, answer.data) && (cfg.codec.parse(redirectURI).None? || !ok.slotRewrite) then Unfinished
    else if ok.sessionWrite && ok.audit then Completed
    else Compensated
  }

  /**
   * The logins whose session gets out although it is not stored and audited: refusals with an empty error code, failed
   * slot writes, and compensated logins whose slot is not consumed by the error redirect.
   */
  predicate Escapes(cfg: Config, o: Outcome) {
    match o.result
    case Rejected(code) => code == Some("")
    case Authenticated(managed, answer) =>
      !managed &&
      match EndOf(cfg, o.redirectURI, o.ok, answer)
      case NotStarted => answer.Denied? ==> answer.code == Some("")
      case Unfinished => true
      case Compensated => !o.ok.slotDelete || cfg.codec.parse(Target(cfg, o.redirectURI, answer.data)).None?
      case Completed => false
  }

  predicate IsBacked(t: Trace, session: string) {
    session in Stored(t) && session in Audited(t)
  }

  /** The session's login is on record, for the slot's present request, and is backed unless it escapes. */
  ghost predicate Truthful(cfg: Config, t: Trace, slot: string, session: string) {
    var o, a := OutcomeOf(t, session), LatestAccepted(t, slot);
    && o.Some? && a.Some? && o.value.redirectURI == a.value.redirectURI
    && (IsBacked(t, session) <==> !Escapes(cfg, o.value))
  }

  /** The session that a redirect hands over outside a provider-managed flow. */
  function Vouched(issue: Issue): Option<string> {
    if issue.Direct? && issue.managed then None else HandedOver(issue)
  }

  /** Every session handed over outside a provider-managed flow was backed unless its login escaped. */
  ghost predicate AllTruthful(cfg: Config, t: Trace) {
    match t
    case Start => true
    case After(past, e) =>
      && AllTruthful(cfg, past)
      && (e.Redirected? && Vouched(e.issue).Some? ==> Truthful(cfg, past, e.slot, Vouched(e.issue).value))
  }

  lemma {:induction false} TruthfulAtAnyTime(cfg: Config, t: Trace, p: Trace)
    requires AllTruthful(cfg, t) && IsPrefix(p, t)
    ensures AllTruthful(cfg, p)
  {
    if p != t {
      TruthfulAtAnyTime(cfg, t.past, p);
    }
  }

  // ---------------------------------------------------------------- binding

  /** The latest accepted request on a slot. */
  function LatestAccepted(t: Trace, slot: string): Option<Acceptance> {
    match t
    case Start => None
    case After(past, e) => if e.Accepted? && e.slot == slot then Some(e.request) else LatestAccepted(past, slot)
  }

  /** The request that was the latest on the slot which produced `code`, when it produced it. */
  function CodeOrigin(t: Trace, code: string): Option<Acceptance> {
    match t
    case Start => None
    case After(past, e) =>
      if e.Redirected? && e.issue.Code? && e.issue.code == code then LatestAccepted(past, e.slot)
      else CodeOrigin(past, code)
  }

  /** The session that the redirect with `code` handed over. */
  function IssuedFor(t: Trace, code: string): Option<string> {
    match t
    case Start => None
    case After(past, e) =>
      if e.Redirected? && e.issue.Code? && e.issue.code == code then HandedOver(e.issue) else IssuedFor(past, code)
  }

  function Issued(t: Trace): set<string> {
    match t
    case Start => {}
    case After(past, e) => Issued(past) + if e.Redirected? && e.issue.Code? then {e.issue.code} else {}
  }

  /**
   * Every redirect echoes the state of the latest accepted request on its slot and stays on the origin of that
   * request's URI, and every exchange presents the URI of the request its code stems from and hands out the session
   * that the redirect with the code handed over.
   */
  ghost predicate AllBound(cfg: Config, t: Trace) {
    match t
    case Start => true
    case After(past, e) =>
      && AllBound(cfg, past)
      && (e.Accepted? ==> UriAllowed(e.request))
      && (e.Redirected? ==>
            LatestAccepted(past, e.slot).Some? && StaysWith(cfg, e.url, LatestAccepted(past, e.slot).value, e.issue))
      && (e.CodeExchanged? ==>
            && CodeOrigin(past, e.code).Some?
            && e.redirectURI == CodeOrigin(past, e.code).value.redirectURI
            && UriAllowed(CodeOrigin(past, e.code).value)
            && IssuedFor(past, e.code) == Some(e.token))
  }

  lemma {:induction false} BoundAtAnyTime(cfg: Config, t: Trace, p: Trace)
    requires AllBound(cfg, t) && IsPrefix(p, t)
    ensures AllBound(cfg, p)
  {
    if p != t {
      BoundAtAnyTime(cfg, t.past, p);
    }
  }

  predicate UriAllowed(a: Acceptance) {
    AllowedRedirect(a.registered, a.redirectURI)
  }

  /** The URL is `base` with its own query, the request's state and what the redirect carries: the error or the code. */
  predicate Carries(url: Url, base: Url, state: string, issue: Issue) {
    var stated := SetParam(base, "state", state);
    match issue
    case Refusal =>
      && "error" in url.query && |url.query["error"]| == 1 && url.query["error"][0] != ""
      && url == SetParam(stated, "error", url.query["error"][0])
    case Direct(s, _) => url == SetParam(stated, "code", s)
    case Code(code, _) => url == SetParam(stated, "code", code)
  }

  /** The URL is what the codec makes of `uri`, with what the redirect carries. */
  predicate LeadsTo(cfg: Config, url: Url, uri: string, state: string, issue: Issue) {
    cfg.codec.parse(uri).Some? && Carries(url, cfg.codec.parse(uri).value, state, issue)
  }

  predicate LeadsToPage(cfg: Config, url: Url, uri: string, state: string, issue: Issue) {
    BuildTOSRedirect(cfg, uri).Some? && LeadsTo(cfg, url, BuildTOSRedirect(cfg, uri).value, state, issue)
  }

  predicate StaysWith(cfg: Config, url: Url, a: Acceptance, issue: Issue) {
    LeadsTo(cfg, url, a.redirectURI, a.state, issue) || LeadsToPage(cfg, url, a.redirectURI, a.state, issue)
  }

  // ---------------------------------------------------------------- roles

  /** The sessions with an accepted terms answer. */
  function TermsAnswered(t: Trace): set<string> {
    match t
    case Start => {}
    case After(past, e) => TermsAnswered(past) + if e.TermsPlaced? then {e.session} else {}
  }

  lemma {:induction false} UnansweredNeverLapsed(t: Trace, session: string)
    requires session !in TermsAnswered(t)
    ensures !LapsedByTerms(t, session)
  {
    if t.After? {
      UnansweredNeverLapsed(t.past, session);
    }
  }

  /** The latest accepted terms answer for the session had one, blocked, role and no role was chosen since. */
  predicate LapsedByTerms(t: Trace, session: string) {
    match t
    case Start => false
    case After(past, e) =>
      if e.TermsPlaced? && e.session == session then OnlyRoleBlocked(e.roles)
      else if e.RoleChosen? && e.session == session then false
      else LapsedByTerms(past, session)
  }
}
