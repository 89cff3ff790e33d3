/**
 LTI 1.3 login and launch: the one-time login state of section 3.2.2.11 of OpenID Connect Core 1.0,
 launches that look a state up early and consume it late, the purge of expired states, and the link
 rows that later say whose grade a session is. Launches, logins and other session calls interleave;
 each database statement is a step of its own. Session calls are atomic here; LtiStatements takes them
 apart.
 */
module LtiLaunch {
  import opened Wrappers
  import opened Text
  import opened Assessment
  import opened SessionSpec

  const STATE_LIFETIME: int := 300 * SECOND
  const NUL: char := '\0'
  const MESSAGE_TYPE := "LtiResourceLinkRequest"
  const VERSION := "1.3.0"
  const SCORE_SCOPE := "https://purl.imsglobal.org/spec/lti-ags/scope/score"

  datatype Platform = Platform(issuer: string, clientID: string, toolLaunchURL: string)

  datatype LoginState = LoginState(
    nonce: string, issuer: string, clientID: string, targetLinkURI: string, expiresAt: int, usedAt: Option<int>)

  datatype LinkKey = LinkKey(platformID: string, deploymentID: string, resourceLinkID: string)

  datatype Link = Link(key: LinkKey, issuer: string, clientID: string, subject: string, lineItem: string)

  // The claims of a token whose signature, issuer, audience and times were verified.
  datatype Claims = Claims(
    subject: string, issuedAt: bool, nonce: string, messageType: string, version: string, deploymentID: string,
    resourceLinkID: string, targetLinkURI: string, roles: seq<string>, lineItem: string, scopes: seq<string>)

  // What comes from libraries: origin comparison, the outbound policy, and the digest of user names.
  datatype Env = Env(
    sameOrigin: (string, string) -> bool,
    lineItemAllowed: (Platform, string) -> bool,
    digest: string -> string)

  // The digest is taken to be injective; its base64url form has no blanks.
  ghost predicate EnvOk(env: Env) {
    && (forall a, b | env.digest(a) == env.digest(b) :: a == b)
    && (forall a :: forall c | c in env.digest(a) :: !IsSpace(c))
  }

  datatype Launch = Launch(state: string, now: int, phase: Phase)

  datatype Phase =
    | Sampled                                                   // clock sampled, state not looked up
    | Known(login: LoginState)
    | ForPlatform(login: LoginState, platformID: string)
    | Verified(login: LoginState, platformID: string, claims: Claims)
    | Mapped(login: LoginState, platformID: string, claims: Claims, deliveryID: string)
    | Consumed(login: LoginState, platformID: string, claims: Claims, deliveryID: string)
    | SessionStarted(login: LoginState, platformID: string, claims: Claims, deliveryID: string, sessionID: string)
    | Launched(sessionID: string)
    | Refused

  // A StartSession call made by a launch, with the state it consumed, its clock sample and its token.
  datatype Start = Start(launch: nat, state: string, now: int, platformID: string, claims: Claims)

  datatype State = State(
    clock: int,
    platforms: map<string, Platform>,
    mappings: map<LinkKey, string>,
    logins: map<string, LoginState>,
    links: map<string, Link>,
    exam: Exam,
    launches: map<nat, Launch>,
    issued: map<string, LoginState>,     // every login state ever issued, as issued
    consumedBy: map<string, nat>,        // which launch consumed a state
    starts: seq<Start>)

  datatype Action =
    | Tick(ticks: nat)
    | RegisterPlatform(id: string, platform: Platform)
    | RegisterResourceLink(key: LinkKey, deliveryID: string)
    | Login(
        issuer: string, clientID: string, targetLinkURI: string, loginHint: string, platformID: string,
        state: string, nonce: string, now: int)
    | Purge(cutoff: int)
    | Begin(l: nat, state: string)
    | Advance(l: nat, pick: string, claims: Option<Claims>, ev: Event, exam: Exam)
    | Fail(l: nat)                        // a statement of the launch fails
    | OtherCall(ev: Event, exam: Exam)    // a session call that no launch makes

  // ---- what the statements check ----

  function TrimSlashes(s: string): string {
    if s != "" && s[|s| - 1] == '/' then TrimSlashes(s[..|s| - 1]) else s
  }

  function UserID(env: Env, issuer: string, subject: string): string {
    "lti:" + env.digest(issuer + [NUL] + subject)
  }

  predicate Registered(platforms: map<string, Platform>, id: string, issuer: string, clientID: string) {
    id in platforms && platforms[id].issuer == issuer && platforms[id].clientID == clientID
  }

  predicate Live(logins: map<string, LoginState>, state: string, now: int) {
    state in logins && logins[state].usedAt.None? && logins[state].expiresAt > now
  }

  function NewLogin(nonce: string, issuer: string, clientID: string, targetLinkURI: string, now: int): LoginState {
    LoginState(nonce, issuer, clientID, targetLinkURI, now + STATE_LIFETIME, None)
  }

  // The claims answer this login and name a user, a deployment and a resource.
  predicate ClaimsAccepted(login: LoginState, c: Claims) {
    && c.subject != "" && c.issuedAt && c.nonce == login.nonce && c.messageType == MESSAGE_TYPE && c.version == VERSION
    && c.deploymentID != "" && c.resourceLinkID != "" && c.targetLinkURI == login.targetLinkURI && c.roles != []
  }

  predicate LineItemAccepted(env: Env, platform: Platform, c: Claims) {
    c.lineItem != "" ==> SCORE_SCOPE in c.scopes && env.lineItemAllowed(platform, c.lineItem)
  }

  // ---- steps ----

  predicate Running(launch: Launch) {
    !launch.phase.Launched? && !launch.phase.Refused?
  }

  ghost predicate Enabled(cfg: Config, env: Env, s: State, a: Action) {
    match a
    case Tick(_) => true
    case RegisterPlatform(id, p) =>
      && id !in s.platforms && (forall i | i in s.platforms :: !Registered(s.platforms, i, p.issuer, p.clientID))
      && p.issuer != "" && p.clientID != "" && TrimSlashes(p.issuer) == p.issuer && NUL !in p.issuer
    case RegisterResourceLink(key, deliveryID) =>
      && key !in s.mappings && key.platformID in s.platforms && deliveryID in cfg.deliveries
      && TrimSpace(key.platformID) != "" && TrimSpace(key.deploymentID) != "" && TrimSpace(key.resourceLinkID) != ""
      && TrimSpace(deliveryID) != ""
    case Login(issuer, clientID, target, hint, platformID, state, _, now) =>
      && Registered(s.platforms, platformID, TrimSlashes(issuer), clientID) && TrimSpace(hint) != ""
      && env.sameOrigin(target, s.platforms[platformID].toolLaunchURL) && now <= s.clock && state !in s.issued
    case Purge(cutoff) => cutoff <= s.clock
    case Begin(l, _) => l !in s.launches
    case Fail(l) => l in s.launches && Running(s.launches[l])
    case OtherCall(ev, exam) => Step(cfg, s.exam, ev, exam)
    case Advance(l, pick, _, ev, exam) =>
      && l in s.launches && Running(s.launches[l])
      && match s.launches[l].phase
         case Known(login) =>
           (forall i | i in s.platforms :: !Registered(s.platforms, i, login.issuer, login.clientID))
           || Registered(s.platforms, pick, login.issuer, login.clientID)
         case ForPlatform(_, platformID) => platformID in s.platforms
         case Mapped(_, platformID, _, _) => platformID in s.platforms
         case Consumed(_, platformID, claims, deliveryID) =>
           && platformID in s.platforms && Step(cfg, s.exam, ev, exam)
           && ev.call == StartCall(deliveryID, UserID(env, s.platforms[platformID].issuer, claims.subject))
         case SessionStarted(_, platformID, _, _, _) => platformID in s.platforms
         case _ => true
  }

  function Put(s: State, l: nat, phase: Phase): State
    requires l in s.launches
  {
    s.(launches := s.launches[l := s.launches[l].(phase := phase)])
  }

  predicate Reads(launch: Launch) {
    launch.phase.Sampled? || launch.phase.Known? || launch.phase.ForPlatform? || launch.phase.Verified?
  }

  // The lookups and checks before the state is consumed.
  function AfterRead(s: State, launch: Launch, pick: string, claims: Option<Claims>): Phase
    requires Reads(launch)
  {
    match launch.phase
    case Sampled => if Live(s.logins, launch.state, launch.now) then Known(s.logins[launch.state]) else Refused
    case Known(login) =>
      if Registered(s.platforms, pick, login.issuer, login.clientID) then ForPlatform(login, pick) else Refused
    case ForPlatform(login, platformID) =>
      if claims.Some? && ClaimsAccepted(login, claims.value) then Verified(login, platformID, claims.value) else Refused
    case Verified(login, platformID, c) =>
      var key := LinkKey(platformID, c.deploymentID, c.resourceLinkID);
      if key in s.mappings then Mapped(login, platformID, c, s.mappings[key]) else Refused
  }

  // The conditional update that consumes the state, with the clock sample of the beginning.
  function Consume(env: Env, s: State, l: nat): State
    requires l in s.launches && s.launches[l].phase.Mapped? && s.launches[l].phase.platformID in s.platforms
  {
    var launch := s.launches[l];
    var p := launch.phase;
    if LineItemAccepted(env, s.platforms[p.platformID], p.claims) && Live(s.logins, launch.state, launch.now) then
      Put(s, l, Consumed(p.login, p.platformID, p.claims, p.deliveryID)).(
        logins := s.logins[launch.state := s.logins[launch.state].(usedAt := Some(launch.now))],
        consumedBy := s.consumedBy[launch.state := l])
    else Put(s, l, Refused)
  }

  // The StartSession call of the launch, with the outcome and the tables it leads to.
  function StartCalled(s: State, l: nat, outcome: Outcome, exam: Exam): State
    requires l in s.launches && s.launches[l].phase.Consumed?
  {
    var launch := s.launches[l];
    var p := launch.phase;
    var next :=
      if outcome.Started? then SessionStarted(p.login, p.platformID, p.claims, p.deliveryID, outcome.sessionID)
      else Refused;
    Put(s, l, next)
      .(exam := exam, starts := s.starts + [Start(l, launch.state, launch.now, p.platformID, p.claims)])
  }

  // The upsert of the session's link row.
  function SaveLink(s: State, l: nat): State
    requires l in s.launches && s.launches[l].phase.SessionStarted? && s.launches[l].phase.platformID in s.platforms
  {
    var p := s.launches[l].phase;
    var platform := s.platforms[p.platformID];
    var link := Link(
      LinkKey(p.platformID, p.claims.deploymentID, p.claims.resourceLinkID),
      platform.issuer, platform.clientID, p.claims.subject, p.claims.lineItem);
    Put(s, l, Launched(p.sessionID)).(links := s.links[p.sessionID := link])
  }

  function Purged(s: State, cutoff: int): State {
    s.(logins := map k | k in s.logins && s.logins[k].expiresAt >= cutoff :: s.logins[k])
  }

  ghost function Apply(cfg: Config, env: Env, s: State, a: Action): State
    requires Enabled(cfg, env, s, a)
  {
    match a
    case Tick(ticks) => s.(clock := s.clock + ticks)
    case RegisterPlatform(id, p) => s.(platforms := s.platforms[id := p])
    case RegisterResourceLink(key, deliveryID) => s.(mappings := s.mappings[key := deliveryID])
    case Login(_, _, target, _, platformID, state, nonce, now) =>
      var p := s.platforms[platformID];
      var login := NewLogin(nonce, p.issuer, p.clientID, target, now);
      s.(logins := s.logins[state := login], issued := s.issued[state := login])
    case Purge(cutoff) => Purged(s, cutoff)
    case Begin(l, state) => s.(launches := s.launches[l := Launch(state, s.clock, Sampled)])
    case Fail(l) => Put(s, l, Refused)
    case OtherCall(_, exam) => s.(exam := exam)
    case Advance(l, pick, claims, ev, exam) =>
      if s.launches[l].phase.Mapped? then Consume(env, s, l)
      else if s.launches[l].phase.Consumed? then StartCalled(s, l, ev.outcome, exam)
      else if s.launches[l].phase.SessionStarted? then SaveLink(s, l)
      else Put(s, l, AfterRead(s, s.launches[l], pick, claims))
  }

  // ---- the invariant: states ----

  predicate SameLogin(a: LoginState, b: LoginState) {
    a == b.(usedAt := a.usedAt)
  }

  // A consumed state is used or purged, and was issued; nothing is ever issued again.
  ghost predicate StatesOk(s: State) {
    && (forall k | k in s.issued :: s.issued[k].usedAt.None?)
    && (forall k | k in s.logins :: k in s.issued && SameLogin(s.logins[k], s.issued[k]))
    && (forall k | k in s.consumedBy :: k in s.issued && !(k in s.logins && s.logins[k].usedAt.None?))
  }

  // What a launch relies on.
  ghost predicate LaunchOk(env: Env, s: State, l: nat, launch: Launch) {
    match launch.phase
    case Sampled => true
    case Known(login) => Awaited(s, launch, login)
    case ForPlatform(login, platformID) =>
      Awaited(s, launch, login) && Registered(s.platforms, platformID, login.issuer, login.clientID)
    case Verified(login, platformID, c) =>
      Awaited(s, launch, login) && Registered(s.platforms, platformID, login.issuer, login.clientID)
          && ClaimsAccepted(login, c)
    case Mapped(login, platformID, c, deliveryID) => Awaited(s, launch, login)
        && MappedOk(s, login, platformID, c, deliveryID)
    case Consumed(login, platformID, c, deliveryID) =>
      && Awaited(s, launch, login) && MappedOk(s, login, platformID, c, deliveryID)
      && LineItemAccepted(env, s.platforms[platformID], c)
      && launch.state in s.consumedBy && s.consumedBy[launch.state] == l
      && (forall i | 0 <= i < |s.starts| :: s.starts[i].state != launch.state)
    case SessionStarted(login, platformID, c, deliveryID, sessionID) =>
      && MappedOk(s, login, platformID, c, deliveryID)
      && sessionID in s.exam.sessions
      && Of(s.exam.sessions[sessionID], TrimSpace(deliveryID), UserID(env, s.platforms[platformID].issuer, c.subject))
    case Launched(_) => true
    case Refused => true
  }

  // The login was issued under this state, and had not expired at the launch's clock sample.
  ghost predicate Awaited(s: State, launch: Launch, login: LoginState) {
    launch.state in s.issued && s.issued[launch.state] == login && launch.now < login.expiresAt
  }

  ghost predicate MappedOk(s: State, login: LoginState, platformID: string, c: Claims, deliveryID: string) {
    && Registered(s.platforms, platformID, login.issuer, login.clientID) && ClaimsAccepted(login, c)
    && LinkKey(platformID, c.deploymentID, c.resourceLinkID) in s.mappings
    && s.mappings[LinkKey(platformID, c.deploymentID, c.resourceLinkID)] == deliveryID
  }

  // Every StartSession call of a launch belongs to one consumed state, and to no other call's.
  ghost predicate StartsOk(env: Env, s: State) {
    && (forall i | 0 <= i < |s.starts| :: StartOk(env, s, s.starts[i]))
    && (forall i, j | 0 <= i < j < |s.starts| :: s.starts[i].state != s.starts[j].state)
  }

  ghost predicate StartOk(env: Env, s: State, start: Start) {
    && start.state in s.issued && start.state in s.consumedBy && s.consumedBy[start.state] == start.launch
    && start.now < s.issued[start.state].expiresAt
    && Registered(s.platforms, start.platformID, s.issued[start.state].issuer, s.issued[start.state].clientID)
    && ClaimsAccepted(s.issued[start.state], start.claims)
    && LinkKey(start.platformID, start.claims.deploymentID, start.claims.resourceLinkID) in s.mappings
    && LineItemAccepted(env, s.platforms[start.platformID], start.claims)
  }

  // ---- the invariant: link rows ----

  // The link row of a session names the session's owner, and a mapping that leads to its delivery.
  ghost predicate LinkOk(env: Env, s: State, sessionID: string, link: Link) {
    && sessionID in s.exam.sessions
    && s.exam.sessions[sessionID].userID == UserID(env, link.issuer, link.subject)
    && Registered(s.platforms, link.key.platformID, link.issuer, link.clientID)
    && link.key in s.mappings
    && s.exam.sessions[sessionID].deliveryID == TrimSpace(s.mappings[link.key])
  }

  ghost predicate PlatformsOk(s: State) {
    forall p | p in s.platforms :: NUL !in s.platforms[p].issuer
  }

  ghost predicate LaunchesOk(env: Env, s: State) {
    forall l | l in s.launches :: LaunchOk(env, s, l, s.launches[l])
  }

  ghost predicate LinksOk(env: Env, s: State) {
    forall x | x in s.links :: LinkOk(env, s, x, s.links[x])
  }

  ghost predicate Inv(env: Env, s: State) {
    PlatformsOk(s) && StatesOk(s) && LaunchesOk(env, s) && StartsOk(env, s) && LinksOk(env, s)
  }

  ghost predicate Init(cfg: Config, s: State) {
    && TablesOk(cfg, s.exam) && s.platforms == map[] && s.mappings == map[] && s.logins == map[] && s.links == map[]
    && s.launches == map[] && s.issued == map[] && s.consumedBy == map[] && s.starts == []
  }
}
