/**
 * The handlers of the service as functions from world to world: what each request does to the three caches, the
 * client map and the observable trace. The classes in Stores and Service are proved equal to these functions.
 */
module Protocol {
  import opened Basics
  import opened Settings
  import opened Entities
  import opened Clients
  import opened Validators
  import opened Traces

  // ---------------------------------------------------------------- caches

  datatype Entry<+V> = Entry(value: V, deadline: int)

  type Cache<V> = map<string, Entry<V>>

  const SLOT_TTL := 20 * 60 * NANOS
  const CODE_TTL := 3 * 60 * NANOS
  const ULID_LENGTH := 26
  const SERVER_ERROR := "server_error"
  const INVALID_CALLBACK := "invalid_callback"
  const CANCELED := "canceled"

  /** A cache returns a copy of the stored value until its deadline. */
  function Lookup<V>(cache: Cache<V>, key: string, now: int): Option<V> {
    if key in cache && now < cache[key].deadline then Some(cache[key].value) else None
  }

  function Drop<V>(cache: Cache<V>, key: string): Cache<V> {
    cache - {key}
  }

  datatype World = World(
    slots: Cache<Correlation>,
    codes: Cache<OneTimeToken>,
    sessions: Cache<Session>,
    clients: map<string, Client>,
    now: int,
    minted: set<string>,
    trace: Trace)

  function Emit(w: World, e: Event): World {
    w.(trace := After(w.trace, e))
  }

  // ---------------------------------------------------------------- requests

  /** The correlation cookie of a request. */
  datatype Cookie = NoCookie | Malformed | Named(slot: string)

  /** The fresh ULIDs a request may draw. */
  datatype Names = Names(slot: string, state: string, session: string, code: string)

  datatype Context = Context(cookie: Cookie, now: int, names: Names, ok: Health)

  datatype AuthorizeQuery = AuthorizeQuery(
    clientID: Option<string>,
    redirectURI: Option<string>,
    provider: Option<string>,
    providerKnown: bool,
    providerStarts: bool,
    state: Option<string>,
    nonce: Option<string>,
    codeChallenge: Option<string>,
    codeChallengeMethod: Option<string>)

  /** The sign-out that a provider asks for after a callback, with the sign-out URL it has. */
  datatype Signout = NoSignout | SignoutVia(url: string)

  datatype CallbackQuery = CallbackQuery(
    provider: string,
    signoutResponse: bool,
    providerKnown: bool,
    error: bool,
    result: ProviderResult,
    signout: Signout)

  datatype TokenForm = TokenForm(
    grantType: Option<string>,
    redirectURI: Option<string>,
    code: Option<string>,
    evidence: Evidence,
    answer: Answer)

  datatype Request =
    | Authorize(authorize: AuthorizeQuery)
    | Callback(callback: CallbackQuery)
    | LogoutCallback
    | Token(form: TokenForm)
    | GetSession(bearer: string)
    | KeepAlive(bearer: string)
    | Logout(bearer: string)
    | AcceptTerms(bearer: string, answer: Answer)
    | SetRole(bearer: string, roleID: Option<string>)
    | ReloadClients(sources: seq<Source>)
    | Evict(slots: set<string>, codes: set<string>, sessions: set<string>)

  /** The requests behind the bearer middleware. */
  predicate AboutSession(request: Request) {
    request.GetSession? || request.KeepAlive? || request.Logout? || request.AcceptTerms? || request.SetRole?
  }

  datatype Step = Step(ctx: Context, request: Request)

  // ---------------------------------------------------------------- correlation slots

  datatype SlotResult = SlotResult(slots: Cache<Correlation>, result: Option<(string, Correlation)>)

  function NamedSlot(slots: Cache<Correlation>, cookie: Cookie, now: int): Option<Correlation> {
    match cookie
    case Named(id) => Lookup(slots, id, now)
    case _ => None
  }

  /** A brand-new correlation for the parameters of `c`. */
  function NewCorrelation(c: Correlation): Correlation {
    Correlation("", c.clientID, c.redirectURI, c.nonce, c.state, c.codeChallenge, c.codeChallengeMethod, "", false, None, None)
  }

  /** The slot's correlation with every per-request and flow field reset for the parameters of `c`. */
  function ResetCorrelation(cor: Correlation, c: Correlation): Correlation {
    cor.(
      redirectURI := c.redirectURI, nonce := c.nonce, state := c.state,
      codeChallenge := c.codeChallenge, codeChallengeMethod := c.codeChallengeMethod,
      id := "", errorCode := "", managedByProvider := false, sessionCreated := None, tosTargetURI := None)
  }

  /** `CorrelationStore.Set`: the slot it wrote and the correlation it stored there, or no result when it failed. */
  function SetSlot(slots: Cache<Correlation>, cookie: Cookie, c: Correlation, ulid: string, now: int, ok: bool): SlotResult {
    if cookie.Malformed? || !ok then SlotResult(slots, None)
    else
      var stored := NamedSlot(slots, cookie, now);
      if stored.None? || stored.value.clientID != c.clientID then StoreSlot(slots, ulid, NewCorrelation(c), now)
      else if c.id == "" then StoreSlot(slots, cookie.slot, ResetCorrelation(stored.value, c), now)
      else StoreSlot(slots, cookie.slot, stored.value.(id := c.id, errorCode := c.errorCode), now)
  }

  function StoreSlot(slots: Cache<Correlation>, id: string, cor: Correlation, now: int): SlotResult {
    SlotResult(slots[id := Entry(cor, now + SLOT_TTL)], Some((id, cor)))
  }

  function DeleteSlot(slots: Cache<Correlation>, cookie: Cookie, ok: bool): Cache<Correlation> {
    if cookie.Named? && ok then Drop(slots, cookie.slot) else slots
  }

  /** The slot a request's cookie names. */
  function CookieSlot(cookie: Cookie): string {
    if cookie.Named? then cookie.slot else ""
  }

  // ---------------------------------------------------------------- redirecting to the caller

  function NewToken(code: string, sess: Correlation): OneTimeToken {
    OneTimeToken(code, sess.redirectURI, [sess.redirectURI], sess.id, sess.sessionCreated)
  }

  function StoreCode(w: World, code: string, sess: Correlation): World {
    w.(codes := w.codes[code := Entry(NewToken(code, sess), w.now + CODE_TTL)])
  }

  /** Consumes the cookie's slot and sends the redirect. */
  function Finish(w: World, ctx: Context, slot: string, url: Url, issue: Issue): World {
    Emit(w.(slots := DeleteSlot(w.slots, ctx.cookie, ctx.ok.slotDelete)), Redirected(slot, url, issue))
  }

  /** The address a finished flow returns to. */
  function Destination(sess: Correlation): string {
    if sess.tosTargetURI.Some? && |sess.tosTargetURI.value| > 0 then sess.tosTargetURI.value else sess.redirectURI
  }

  /** `RedirectToCaller` for the correlation `sess` that belongs to `slot`. */
  function RedirectToCaller(cfg: Config, w: World, ctx: Context, slot: string, sess: Correlation): World {
    match cfg.codec.parse(Destination(sess))
    case None => w
    case Some(parsed) =>
      var url := if sess.state.Some? then SetParam(parsed, "state", sess.state.value) else parsed;
      if |sess.errorCode| > 0 then
        Finish(w, ctx, slot, SetParam(url, "error", sess.errorCode), Refusal)
      else if cfg.codeGrant && !sess.managedByProvider then
        if ctx.ok.codeWrite then
          Finish(StoreCode(w, ctx.names.code, sess), ctx, slot,
                 SetParam(url, "code", ctx.names.code), Code(ctx.names.code, sess.id))
        else w
      else
        Finish(w, ctx, slot, SetParam(url, "code", sess.id), Direct(sess.id, sess.managedByProvider))
  }

  // ---------------------------------------------------------------- authorize

  /** The correlation that `/authorize` asks the store to keep. */
  function RequestedCorrelation(ctx: Context, q: AuthorizeQuery): Correlation
    requires q.clientID.Some? && q.redirectURI.Some?
  {
    Correlation("", q.clientID.value, q.redirectURI.value, q.nonce,
      Some(if q.state.Some? then q.state.value else ctx.names.state),
      q.codeChallenge, q.codeChallengeMethod, "", false, None, None)
  }

  predicate AcceptableQuery(w: World, q: AuthorizeQuery) {
    && q.clientID.Some? && q.clientID.value in w.clients
    && q.redirectURI.Some? && AllowedRedirect(w.clients[q.clientID.value].redirectURIs, q.redirectURI.value)
    && q.provider.Some? && q.providerKnown
  }

  function AuthorizeStep(cfg: Config, w: World, ctx: Context, q: AuthorizeQuery): World {
    if !AcceptableQuery(w, q) then w
    else
      var wanted := RequestedCorrelation(ctx, q);
      var written := SetSlot(w.slots, ctx.cookie, wanted, ctx.names.slot, w.now, ctx.ok.slotWrite);
      match written.result
      case None => w
      case Some((slot, cor)) =>
        var request := Acceptance(wanted.clientID, w.clients[wanted.clientID].redirectURIs, wanted.redirectURI, wanted.state.value);
        var w1 := Emit(w.(slots := written.slots), Accepted(slot, request));
        if cor.id != "" then RedirectToCaller(cfg, w1, ctx, slot, cor)
        else if q.providerStarts then w1
        else RedirectToCaller(cfg, w1, ctx, slot, cor.(errorCode := SERVER_ERROR))
  }

  // ---------------------------------------------------------------- login

  /** The world, the handler's copy of the correlation and whether user data was handled without error. */
  datatype Login = Login(w: World, sess: Correlation, ok: bool)

  function StoreSession(cfg: Config, w: World, session: Session): World {
    w.(sessions := w.sessions[session.id := Entry(session, w.now + cfg.sessionTimeout)])
  }

  function DropSession(w: World, id: string, ok: bool): World {
    if ok then w.(sessions := Drop(w.sessions, id)) else w
  }

  /** Stores a new session and records that it did, unless the store fails. */
  function CreateSession(cfg: Config, w: World, session: Session, service: bool, ok: bool): World {
    if ok then Emit(StoreSession(cfg, w, session), SessionStored(session.id, service)) else w
  }

  /** The audit of a login and the compensation when creating or auditing failed. */
  function AuditLogin(w: World, ctx: Context, sess: Correlation, created: bool): Login {
    if created && ctx.ok.audit then Login(Emit(w, LoginAudited(sess.id)), sess, true)
    else Login(DropSession(w, sess.id, ctx.ok.sessionDelete), sess.(errorCode := SERVER_ERROR), false)
  }

  /** `handleUserData` with a correlation: turns the authorizer's answer into a session. */
  function HandleLogin(cfg: Config, w: World, ctx: Context, sess: Correlation, answer: Answer): Login {
    match answer
    case Denied(code) =>
      Login(w, sess.(errorCode := if code.Some? then code.value else SERVER_ERROR), false)
    case Granted(data) =>
      var session := NewSession(cfg, sess.id, data, w.now);
      var dated := if sess.managedByProvider then sess else sess.(sessionCreated := session.lastAccessed);
      var written := SetSlot(w.slots, ctx.cookie, dated, ctx.names.slot, w.now, ctx.ok.slotWrite);
      if written.result.None? then Login(w, dated, false)
      else
        var w1 := CreateSession(cfg, w.(slots := written.slots), session, false, ctx.ok.sessionWrite);
        if cfg.requiresTOS && !data.isTOSAccepted then SendToTerms(cfg, w1, ctx, dated)
        else AuditLogin(w1, ctx, dated, ctx.ok.sessionWrite)
  }

  function SendToTerms(cfg: Config, w: World, ctx: Context, sess: Correlation): Login {
    match BuildTOSRedirect(cfg, sess.redirectURI)
    case None => Login(w, sess, false)
    case Some(page) =>
      var target := sess.(tosTargetURI := Some(page));
      var written := SetSlot(w.slots, ctx.cookie, target, ctx.names.slot, w.now, ctx.ok.slotRewrite);
      if written.result.None? then Login(w, target, false)
      else AuditLogin(w.(slots := written.slots), ctx, target, ctx.ok.sessionWrite)
  }

  // ---------------------------------------------------------------- callbacks

  /** What the trace keeps of a provider's answer for the flow `sess`. */
  function AnswerTo(ctx: Context, sess: Correlation, q: CallbackQuery): Event {
    Answered(ctx.names.session, Outcome(sess.redirectURI, q.result, ctx.ok))
  }

  function CallbackStep(cfg: Config, w: World, ctx: Context, q: CallbackQuery): World {
    if q.provider == "" || q.signoutResponse || !ctx.ok.slotRead then w
    else
      var stored := NamedSlot(w.slots, ctx.cookie, w.now);
      if stored.None? then w
      else
        var slot, sess := CookieSlot(ctx.cookie), stored.value;
        if sess.id != "" then RedirectToCaller(cfg, w, ctx, slot, sess)
        else if !q.providerKnown then
          var w1 := RedirectToCaller(cfg, w, ctx, slot, sess.(errorCode := INVALID_CALLBACK));
          w1.(slots := DeleteSlot(w1.slots, ctx.cookie, ctx.ok.slotDelete))
        else if q.error then RedirectToCaller(cfg, w, ctx, slot, sess.(errorCode := CANCELED))
        else ProviderStep(cfg, Emit(w, AnswerTo(ctx, sess, q)), ctx, slot, sess.(id := ctx.names.session), q)
  }

  function ProviderStep(cfg: Config, w: World, ctx: Context, slot: string, sess: Correlation, q: CallbackQuery): World {
    match q.result
    case Rejected(code) =>
      RedirectToCaller(cfg, w, ctx, slot, sess.(errorCode := if code.Some? then code.value else INVALID_CALLBACK))
    case Authenticated(managed, answer) =>
      if managed then RedirectToCaller(cfg, w, ctx, slot, sess.(managedByProvider := true))
      else
        var login := HandleLogin(cfg, w, ctx, sess, answer);
        if login.ok && q.signout.SignoutVia? then login.w
        else RedirectToCaller(cfg, login.w, ctx, slot, login.sess)
  }

  function LogoutCallbackStep(cfg: Config, w: World, ctx: Context): World {
    var stored := NamedSlot(w.slots, ctx.cookie, w.now);
    if !ctx.ok.slotRead || stored.None? || stored.value.id == "" then w
    else RedirectToCaller(cfg, w, ctx, CookieSlot(ctx.cookie), stored.value)
  }

  // ---------------------------------------------------------------- tokens

  /** `RedeemToken`: a failed delete is only logged. */
  function RedeemCode(w: World, ctx: Context, code: string): World {
    if ctx.ok.codeDelete then w.(codes := Drop(w.codes, code)) else w
  }

  predicate RedirectMatches(ott: OneTimeToken, redirectURI: string) {
    if |ott.redirectURIs| > 0 then redirectURI in ott.redirectURIs else ott.redirectURI == redirectURI
  }

  /** The code grant. The 403 for a disabled grant is written but the exchange goes on. */
  function ExchangeStep(cfg: Config, w: World, ctx: Context, redirectURI: Option<string>, code: Option<string>): World {
    if redirectURI.None? || code.None? || !ctx.ok.codeRead then w
    else
      var ott := Lookup(w.codes, code.value, w.now);
      var w1 := RedeemCode(w, ctx, code.value);
      if ott.None? || !RedirectMatches(ott.value, redirectURI.value) then w1
      else
        Emit(w1, CodeExchanged(code.value, redirectURI.value, ott.value.sessionToken,
                               GetSecondsToLive(cfg.sessionTimeout, ott.value.sessionCreated, w.now)))
  }

  function ServiceStep(cfg: Config, w: World, ctx: Context, grantType: string, ev: Evidence, answer: Answer): World {
    if ServiceClient(cfg, w.clients, grantType, ev, w.now).None? || answer.Denied? then w
    else OpenService(cfg, w, ctx, answer.data)
  }

  /** Opens the session of an authenticated service client, with the compensation when storing or auditing it failed. */
  function OpenService(cfg: Config, w: World, ctx: Context, data: UserData): World {
    var session := NewServiceSession(ctx.names.session, data, w.now);
    var w1 := CreateSession(cfg, w, session, true, ctx.ok.sessionWrite);
    if ctx.ok.sessionWrite && ctx.ok.audit then
      Emit(Emit(w1, ServiceAudited(session.id)),
           ServiceTokenIssued(session.id, GetSecondsToLive(cfg.sessionTimeout, session.lastAccessed, w.now)))
    else DropSession(w1, session.id, ctx.ok.sessionDelete)
  }

  function TokenStep(cfg: Config, w: World, ctx: Context, form: TokenForm): World {
    match form.grantType
    case None => w
    case Some(grantType) =>
      if grantType == "authorization_code" then ExchangeStep(cfg, w, ctx, form.redirectURI, form.code)
      else ServiceStep(cfg, w, ctx, grantType, form.evidence, form.answer)
  }

  // ---------------------------------------------------------------- sessions

  /** The bearer middleware: the session that a token resolves to. */
  function Resolve(w: World, ctx: Context, bearer: string): Option<Session> {
    if ctx.ok.sessionRead then Lookup(w.sessions, bearer, w.now) else None
  }

  /** Answering with an outlived session logs the request's session `id` out. */
  function RespondStep(cfg: Config, w: World, ctx: Context, id: string, session: Session): World {
    if session.IsActive() && GetSecondsToLive(cfg.sessionTimeout, session.lastAccessed, w.now) < 0
    then DropSession(w, id, ctx.ok.sessionDelete)
    else w
  }

  function KeepAliveStep(cfg: Config, w: World, ctx: Context, bearer: string): World {
    var session := Resolve(w, ctx, bearer);
    if session.None? || |session.value.id| > ULID_LENGTH then w
    else
      var extended := Lookup(w.sessions, session.value.id, w.now);
      if extended.None? then w
      else
        var current := extended.value.(lastAccessed := Some(w.now));
        var w1 := if ctx.ok.sessionWrite then StoreSession(cfg, w, current) else w;
        RespondStep(cfg, w1, ctx, session.value.id, current)
  }

  function AcceptTermsStep(cfg: Config, w: World, ctx: Context, bearer: string, answer: Answer): World {
    var session := Resolve(w, ctx, bearer);
    if session.None? then w else AnswerTerms(cfg, w, ctx, session.value, answer)
  }

  /** `handleUserData` without a correlation: the authorizer's answer updates the request's own session. */
  function AnswerTerms(cfg: Config, w: World, ctx: Context, session: Session, answer: Answer): World {
    if answer.Denied? || session.id == "" || !ctx.ok.sessionWrite then w
    else
      var w1 := StoreSession(cfg, w, AfterTerms(cfg, session, answer.data, w.now));
      if answer.data.isTOSAccepted then Emit(w1, TermsPlaced(session.id, answer.data.roles)) else w1
  }

  /** The terms middleware in front of the role endpoints. */
  predicate TermsGateOpen(cfg: Config, session: Session) {
    !cfg.requiresTOS || session.isTOSAccepted
  }

  function SetRoleStep(cfg: Config, w: World, ctx: Context, bearer: string, roleID: Option<string>): World {
    var session := Resolve(w, ctx, bearer);
    if session.None? || !TermsGateOpen(cfg, session.value) then w
    else
      var role := ChosenRole(session.value, roleID);
      if role.None? || session.value.id == "" || !ctx.ok.sessionWrite then w
      else
        var current := AfterRole(session.value, role.value);
        var w1 := Emit(StoreSession(cfg, w, current), RoleChosen(current.id));
        if ctx.ok.audit then RespondStep(cfg, w1, ctx, current.id, current) else w1
  }

  function GetSessionStep(cfg: Config, w: World, ctx: Context, bearer: string): World {
    var session := Resolve(w, ctx, bearer);
    if session.None? then w else RespondStep(cfg, w, ctx, session.value.id, session.value)
  }

  function LogoutStep(w: World, ctx: Context, bearer: string): World {
    var session := Resolve(w, ctx, bearer);
    if session.None? then w else DropSession(w, session.value.id, ctx.ok.sessionDelete)
  }

  // ---------------------------------------------------------------- steps and runs

  function NameSet(n: Names): set<string> {
    {n.slot, n.state, n.session, n.code}
  }

  /** The world as a request finds it: the clock has moved and the request's fresh names are taken. */
  function Enter(w: World, ctx: Context): World {
    w.(now := ctx.now, minted := w.minted + NameSet(ctx.names))
  }

  function Handle(cfg: Config, w: World, ctx: Context, request: Request): World {
    match request
    case Authorize(q) => AuthorizeStep(cfg, w, ctx, q)
    case Callback(q) => CallbackStep(cfg, w, ctx, q)
    case LogoutCallback => LogoutCallbackStep(cfg, w, ctx)
    case Token(form) => TokenStep(cfg, w, ctx, form)
    case GetSession(bearer) => GetSessionStep(cfg, w, ctx, bearer)
    case KeepAlive(bearer) => KeepAliveStep(cfg, w, ctx, bearer)
    case Logout(bearer) => LogoutStep(w, ctx, bearer)
    case AcceptTerms(bearer, answer) => AcceptTermsStep(cfg, w, ctx, bearer, answer)
    case SetRole(bearer, roleID) => SetRoleStep(cfg, w, ctx, bearer, roleID)
    case ReloadClients(sources) =>
      var loaded := LoadAll(cfg.hash, sources);
      if loaded.Some? then w.(clients := Index(loaded.value)) else w
    case Evict(slots, codes, sessions) =>
      w.(slots := w.slots - slots, codes := w.codes - codes, sessions := w.sessions - sessions)
  }

  function Apply(cfg: Config, w: World, step: Step): World {
    Handle(cfg, Enter(w, step.ctx), step.ctx, step.request)
  }

  function Run(cfg: Config, w: World, steps: seq<Step>): World {
    if steps == [] then w
    else Apply(cfg, Run(cfg, w, steps[..|steps| - 1]), steps[|steps| - 1])
  }

  const EMPTY_WORLD := World(map[], map[], map[], map[], 0, {}, Start)

  /** The names of a step are ULIDs that no earlier step drew. */
  predicate FreshNames(w: World, n: Names) {
    && NameSet(n) !! w.minted
    && n.slot != n.session && n.slot != n.code && n.session != n.code
    && n.state !in {n.slot, n.session, n.code}
    && forall name | name in NameSet(n) :: |name| == ULID_LENGTH
  }

  /** A step a run can take: fresh names and a clock that does not go back. */
  predicate Admissible(w: World, step: Step) {
    FreshNames(w, step.ctx.names) && w.now <= step.ctx.now
  }

  /** Every step of the run is admissible where it is taken. */
  predicate IsRun(cfg: Config, w: World, steps: seq<Step>) {
    steps != [] ==>
      && IsRun(cfg, w, steps[..|steps| - 1])
      && Admissible(Run(cfg, w, steps[..|steps| - 1]), steps[|steps| - 1])
  }
}
