/**
 The LTI service as an object that updates its tables, one call after another, which is how calls run
 on SQLite. Each call is proved to be a run of the steps that interleave in LtiLaunch, so what every
 run keeps, each call keeps.
 */
module LtiService {
  import opened Wrappers
  import opened Text
  import opened Assessment
  import opened SessionSpec
  import opened LtiLaunch
  import opened LtiTheorems
  import opened LtiSafety
  import SessionService

  // ---- runs of one call ----

  /** What every run keeps, every call keeps. */
  lemma CallsKeepInv(cfg: Config, env: Env, s: State, t: State)
    requires EnvOk(env) && Good(cfg, env, s) && Reaches(cfg, env, s, t)
    ensures Good(cfg, env, t) && Extends(s, t)
  {
    var run :| IsRun(cfg, env, s, run) && After(cfg, env, s, run) == t;
    LtiSafety.RunKeepsInv(cfg, env, s, run);
  }

  // What holds after every action when it held before.
  ghost predicate Kept(cfg: Config, env: Env, ok: State -> bool) {
    forall t, a | ok(t) && Enabled(cfg, env, t, a) :: ok(Apply(cfg, env, t, a))
  }

  lemma ReachingIsKept(cfg: Config, env: Env, s: State)
    ensures Kept(cfg, env, t => Reaches(cfg, env, s, t)) && Reaches(cfg, env, s, s)
  {
    ReachesSelf(cfg, env, s);
    forall t, a | Reaches(cfg, env, s, t) && Enabled(cfg, env, t, a)
        ensures Reaches(cfg, env, s, Apply(cfg, env, t, a)) {
      ReachesNext(cfg, env, s, t, a);
    }
  }

  const NOTHING := Event(StartCall("", ""), 0, 0, Failed(SessionNotFound))

  // The platform that the launch would look up, or none when there is none.
  predicate LookupOk(s: State, phase: Phase, pick: string) {
    && (phase.Known? ==> Registered(s.platforms, pick, phase.login.issuer, phase.login.clientID)
                         || forall i | i in s.platforms ::
                             !Registered(s.platforms, i, phase.login.issuer, phase.login.clientID))
    && (phase.ForPlatform? ==> phase.platformID in s.platforms)
  }

  lemma KeptByBegin(cfg: Config, env: Env, ok: State -> bool, t: State, l: nat, state: string)
    requires Kept(cfg, env, ok) && ok(t) && l !in t.launches
    ensures ok(t.(launches := t.launches[l := Launch(state, t.clock, Sampled)]))
  {
    assert Enabled(cfg, env, t, Begin(l, state));
    assert Apply(cfg, env, t, Begin(l, state)) == t.(launches := t.launches[l := Launch(state, t.clock, Sampled)]);
  }

  lemma KeptByRead(cfg: Config, env: Env, ok: State -> bool, t: State, l: nat, pick: string, claims: Option<Claims>)
    requires Kept(cfg, env, ok) && ok(t) && l in t.launches && Reads(t.launches[l])
    requires LookupOk(t, t.launches[l].phase, pick)
    ensures ok(Put(t, l, AfterRead(t, t.launches[l], pick, claims)))
  {
    var a := Advance(l, pick, claims, NOTHING, t.exam);
    assert Enabled(cfg, env, t, a) && Apply(cfg, env, t, a) == Put(t, l, AfterRead(t, t.launches[l], pick, claims));
  }

  lemma KeptByConsumption(cfg: Config, env: Env, ok: State -> bool, t: State, l: nat)
    requires Kept(cfg, env, ok) && ok(t)
    requires l in t.launches && t.launches[l].phase.Mapped? && t.launches[l].phase.platformID in t.platforms
    ensures ok(Consume(env, t, l))
  {
    var a := Advance(l, "", None, NOTHING, t.exam);
    assert Enabled(cfg, env, t, a) && Apply(cfg, env, t, a) == Consume(env, t, l);
  }

  lemma KeptByStart(cfg: Config, env: Env, ok: State -> bool, t: State, l: nat, ev: Event, exam: Exam)
    requires Kept(cfg, env, ok) && ok(t)
    requires l in t.launches && CallsFor(env, t, t.launches[l], ev.call) && Step(cfg, t.exam, ev, exam)
    ensures ok(StartCalled(t, l, ev.outcome, exam))
  {
    var a := Advance(l, "", None, ev, exam);
    assert Enabled(cfg, env, t, a) && Apply(cfg, env, t, a) == StartCalled(t, l, ev.outcome, exam);
  }

  lemma KeptByLink(cfg: Config, env: Env, ok: State -> bool, t: State, l: nat)
    requires Kept(cfg, env, ok) && ok(t)
    requires l in t.launches && t.launches[l].phase.SessionStarted? && t.launches[l].phase.platformID in t.platforms
    ensures ok(SaveLink(t, l))
  {
    var a := Advance(l, "", None, NOTHING, t.exam);
    assert Enabled(cfg, env, t, a) && Apply(cfg, env, t, a) == SaveLink(t, l);
  }

  lemma KeptByLogin(cfg: Config, env: Env, ok: State -> bool, t: State, a: Action)
    requires Kept(cfg, env, ok) && ok(t) && a.Login? && Enabled(cfg, env, t, a)
    ensures var p := t.platforms[a.platformID];
            var login := NewLogin(a.nonce, p.issuer, p.clientID, a.targetLinkURI, a.now);
            ok(t.(logins := t.logins[a.state := login], issued := t.issued[a.state := login]))
  {
  }

  lemma KeptByPurge(cfg: Config, env: Env, ok: State -> bool, t: State, cutoff: int)
    requires Kept(cfg, env, ok) && ok(t) && cutoff <= t.clock
    ensures ok(Purged(t, cutoff))
  {
    assert Enabled(cfg, env, t, Purge(cutoff)) && Apply(cfg, env, t, Purge(cutoff)) == Purged(t, cutoff);
  }

  lemma KeptByFailure(cfg: Config, env: Env, ok: State -> bool, t: State, l: nat)
    requires Kept(cfg, env, ok) && ok(t) && l in t.launches && Running(t.launches[l])
    ensures ok(Put(t, l, Refused))
  {
    assert Enabled(cfg, env, t, Fail(l)) && Apply(cfg, env, t, Fail(l)) == Put(t, l, Refused);
  }

  // ---- why a call is refused ----

  datatype LtiError =
    | InvalidRequest | PlatformNotFound | InvalidState | InvalidToken | ResourceLinkMissing
    | SessionRefused(error: Error) | NotStored

  // The database statements of the service, by what they are for.
  datatype Statement = AtState | AtPlatform | AtMapping | AtDelivery | AtUse | AtLink | AtInsert | AtPurge

  // The statements that fail in a call, the service's own and those of StartSession.
  datatype Faults = Faults(own: set<Statement>, session: set<SessionService.Statement>)

  // The platform that a lookup finds, when it finds one.
  predicate Finds(platforms: map<string, Platform>, issuer: string, clientID: string, pick: string) {
    (exists i | i in platforms :: Registered(platforms, i, issuer, clientID)) ==>
        Registered(platforms, pick, issuer, clientID)
  }

  // Why a login at the platform `pick` is refused; None when it is not.
  function LoginRefusal(
    env: Env, platforms: map<string, Platform>, pick: string, issuer: string, clientID: string,
    targetLinkURI: string, loginHint: string, messageHint: string, faults: set<Statement>): Option<LtiError>
  {
    if ByteLen(issuer) > 255 || ByteLen(clientID) > 255 || ByteLen(targetLinkURI) > 500
       || ByteLen(loginHint) > 4096 || ByteLen(messageHint) > 4096 then Some(InvalidRequest)
    else if AtPlatform in faults || !Registered(platforms, pick, TrimSlashes(issuer), clientID)
        then Some(PlatformNotFound)
    else if TrimSpace(loginHint) == "" || !env.sameOrigin(targetLinkURI, platforms[pick].toolLaunchURL)
        then Some(InvalidRequest)
    else if AtInsert in faults then Some(NotStored)
    else None
  }

  // A platform has this issuer and client.
  predicate IsTaken(platforms: map<string, Platform>, issuer: string, clientID: string) {
    exists i :: i in platforms && platforms[i].issuer == issuer && platforms[i].clientID == clientID
  }

  // Nothing is too long, the platform is registered under this issuer, without slashes at its end, and
  // client, somebody is named, and the target belongs to the tool; and no statement fails.
  predicate LoginAccepted(
    env: Env, platforms: map<string, Platform>, pick: string, issuer: string, clientID: string,
    targetLinkURI: string, loginHint: string, messageHint: string, faults: set<Statement>)
  {
    && ByteLen(issuer) <= 255 && ByteLen(clientID) <= 255 && ByteLen(targetLinkURI) <= 500
    && ByteLen(loginHint) <= 4096 && ByteLen(messageHint) <= 4096
    && pick in platforms && platforms[pick].issuer == TrimSlashes(issuer) && platforms[pick].clientID == clientID
    && TrimSpace(loginHint) != "" && env.sameOrigin(targetLinkURI, platforms[pick].toolLaunchURL)
    && AtPlatform !in faults && AtInsert !in faults
  }

  // Why the checks of a token for the platform `pick` fail; None when they do not.
  function TokenRefusal(
      s: State, state: string, now: int, pick: string, token: Option<Claims>,
          faults: set<Statement>): Option<LtiError> {
    if AtState in faults || !Live(s.logins, state, now) then Some(InvalidState)
    else if AtPlatform in faults || !Registered(s.platforms, pick, s.logins[state].issuer, s.logins[state].clientID)
        then Some(PlatformNotFound)
    else if token.None? || !ClaimsAccepted(s.logins[state], token.value) then Some(InvalidToken)
    else None
  }

  function KeyOf(platformID: string, c: Claims): LinkKey {
    LinkKey(platformID, c.deploymentID, c.resourceLinkID)
  }

  // Why a launch is refused before it starts a session; None when it is not.
  function LaunchRefusal(
      env: Env, s: State, state: string, now: int, pick: string, token: Option<Claims>, faults: set<Statement>)
    : Option<LtiError> {
    var refusal := TokenRefusal(s, state, now, pick, token, faults);
    if refusal.Some? then refusal
    else if AtMapping in faults || KeyOf(pick, token.value) !in s.mappings then Some(ResourceLinkMissing)
    else if !LineItemAccepted(env, s.platforms[pick], token.value) then Some(InvalidToken)
    else if AtUse in faults then Some(InvalidState)
    else None
  }

  // The state was issued, is unused and has not expired, the platform is that of its login, and the
  // verified token answers the login; and no statement fails.
  predicate TokenAccepted(
    s: State, state: string, now: int, pick: string, token: Option<Claims>, faults: set<Statement>)
  {
    && AtState !in faults && AtPlatform !in faults
    && state in s.logins && s.logins[state].usedAt.None? && now < s.logins[state].expiresAt
    && pick in s.platforms && s.platforms[pick].issuer == s.logins[state].issuer
    && s.platforms[pick].clientID == s.logins[state].clientID
    && token.Some? && Answers(token.value, s.logins[state].nonce, s.logins[state].targetLinkURI)
  }

  // Beyond that, the platform knows the resource, and may be sent the grade.
  predicate LaunchAccepted(
    env: Env, s: State, state: string, now: int, pick: string, token: Option<Claims>, faults: set<Statement>)
  {
    && TokenAccepted(s, state, now, pick, token, faults) && AtMapping !in faults && AtUse !in faults
    && Serves(env, s, pick, s.logins[state].issuer, s.logins[state].clientID, token.value)
  }

  lemma RefusalsAreExact(
      env: Env, s: State, state: string, now: int, pick: string, token: Option<Claims>, faults: set<Statement>)
    ensures TokenRefusal(s, state, now, pick, token, faults).None?
            <==> TokenAccepted(s, state, now, pick, token, faults)
    ensures LaunchRefusal(env, s, state, now, pick, token, faults).None?
            <==> LaunchAccepted(env, s, state, now, pick, token, faults)
  {
  }

  function LinkOf(platforms: map<string, Platform>, pick: string, c: Claims): Link
    requires pick in platforms
  {
    Link(KeyOf(pick, c), platforms[pick].issuer, platforms[pick].clientID, c.subject, c.lineItem)
  }

  // ---- the service ----

  class Lti {
    const env: Env
    const sessions: SessionService.Service
    var platforms: map<string, Platform>
    var mappings: map<LinkKey, string>
    var logins: map<string, LoginState>
    var links: map<string, Link>
    ghost var launches: map<nat, Launch>
    ghost var issued: map<string, LoginState>
    ghost var consumedBy: map<string, nat>
    ghost var starts: seq<Start>

    ghost function Tables(clock: int): State
      reads this, sessions
    {
      State(clock, platforms, mappings, logins, links, sessions.Tables(), launches, issued, consumedBy, starts)
    }

    constructor (env: Env, sessions: SessionService.Service)
      ensures this.env == env && this.sessions == sessions
      ensures Tables(0) == State(0, map[], map[], map[], map[], sessions.Tables(), map[], map[], map[], [])
    {
      this.env, this.sessions := env, sessions;
      platforms, mappings, logins, links := map[], map[], map[], map[];
      launches, issued, consumedBy, starts := map[], map[], map[], [];
    }

    /** `accepts` stands for the validation of URLs and keys, which refuses an issuer with a NUL. */
    method RegisterPlatform(
        id: string, platform: Platform, accepts: Platform -> bool, now: int, faults: set<Statement>)
      returns (registered: bool)
      requires forall p | accepts(p) :: NUL !in p.issuer
      modifies this`platforms
      ensures Reaches(sessions.cfg, env, old(Tables(now)), Tables(now))
      ensures var p := platform.(
                issuer := TrimSlashes(TrimSpace(platform.issuer)), clientID := TrimSpace(platform.clientID));
              && (registered <==>
                    && p.issuer != "" && p.clientID != "" && accepts(p) && id !in old(platforms)
                    && AtInsert !in faults
                    && !IsTaken(old(platforms), p.issuer, p.clientID))
              && platforms == if registered then old(platforms)[id := p] else old(platforms)
    {
      ghost var s := Tables(now);
      ReachesSelf(sessions.cfg, env, s);
      var p := platform.(issuer := TrimSlashes(TrimSpace(platform.issuer)), clientID := TrimSpace(platform.clientID));
      if p.issuer == "" || p.clientID == "" || !accepts(p) {
        return false;
      }
      if AtInsert in faults || id in platforms || IsTaken(platforms, p.issuer, p.clientID) {
        return false;
      }
      TrimSlashesOnce(TrimSpace(platform.issuer));
      platforms := platforms[id := p];
      ReachesNext(sessions.cfg, env, s, s, Action.RegisterPlatform(id, p));
      return true;
    }

    method RegisterResourceLink(key: LinkKey, deliveryID: string, now: int, faults: set<Statement>)
      returns (registered: bool)
      modifies this`mappings
      ensures Reaches(sessions.cfg, env, old(Tables(now)), Tables(now))
      ensures registered <==>
              && TrimSpace(key.platformID) != "" && TrimSpace(key.deploymentID) != ""
              && TrimSpace(key.resourceLinkID) != "" && TrimSpace(deliveryID) != ""
              && ByteLen(key.platformID) <= 36 && ByteLen(deliveryID) <= 36
              && ByteLen(key.deploymentID) <= 255 && ByteLen(key.resourceLinkID) <= 255
              && key.platformID in platforms && deliveryID in sessions.cfg.deliveries && key !in old(mappings)
              && AtPlatform !in faults && AtDelivery !in faults && AtInsert !in faults
      ensures mappings == if registered then old(mappings)[key := deliveryID] else old(mappings)
    {
      ghost var s := Tables(now);
      ReachesSelf(sessions.cfg, env, s);
      if TrimSpace(key.platformID) == "" || TrimSpace(key.deploymentID) == "" ||
         TrimSpace(key.resourceLinkID) == "" || TrimSpace(deliveryID) == ""
      {
        return false;
      }
      if ByteLen(key.platformID) > 36 || ByteLen(deliveryID) > 36
         || ByteLen(key.deploymentID) > 255 || ByteLen(key.resourceLinkID) > 255
      {
        return false;
      }
      if AtPlatform in faults || key.platformID !in platforms {
        return false;
      }
      if AtDelivery in faults || deliveryID !in sessions.cfg.deliveries {
        return false;
      }
      if AtInsert in faults || key in mappings {
        return false;
      }
      mappings := mappings[key := deliveryID];
      ReachesNext(sessions.cfg, env, s, s, Action.RegisterResourceLink(key, deliveryID));
      return true;
    }

    /**
     Issues a login state under the fresh names `state` and `nonce`, and purges the expired ones, when
     that does not fail.
     */
    method InitiateLogin(
      issuer: string, clientID: string, targetLinkURI: string, loginHint: string, messageHint: string,
      state: string, nonce: string, now: int, faults: set<Statement>) returns (refusal: Option<LtiError>,
          ghost pick: string)
      requires state !in issued
      modifies this`logins, this`issued
      ensures Reaches(sessions.cfg, env, old(Tables(now)), Tables(now))
      ensures Finds(platforms, TrimSlashes(issuer), clientID, pick)
      ensures refusal == LoginRefusal(env, platforms, pick, issuer, clientID, targetLinkURI, loginHint, messageHint,
          faults)
      ensures refusal.Some? ==> logins == old(logins)
      ensures refusal.None? ==>
                var login := NewLogin(nonce, TrimSlashes(issuer), clientID, targetLinkURI, now);
                logins == WithLogin(old(logins), state, login, now, AtPurge !in faults)
      ensures refusal.None?
              <==> LoginAccepted(env, platforms, pick, issuer, clientID, targetLinkURI, loginHint, messageHint, faults)
      ensures refusal.None? ==>
                && state in logins
                && logins[state]
                   == LoginState(nonce, TrimSlashes(issuer), clientID, targetLinkURI, now + 300_000_000_000, None)
                && forall k | k != state ::
                     && (k in logins <==> k in old(logins) && (AtPurge in faults || old(logins)[k].expiresAt >= now))
                     && (k in logins ==> logins[k] == old(logins)[k])
    {
      ghost var s := Tables(now);
      ReachingIsKept(sessions.cfg, env, s);
      refusal, pick := IssueState(
        t => Reaches(sessions.cfg, env, s, t), issuer, clientID, targetLinkURI, loginHint, messageHint,
        state, nonce, now, faults);
    }

    // The states after a new one was issued and, when that succeeds, the expired ones were purged.
    function WithLogin(
      logins: map<string, LoginState>, state: string, login: LoginState, now: int, purged: bool): map<string,
          LoginState>
    {
      var more := logins[state := login];
      if purged then map k | k in more && more[k].expiresAt >= now :: more[k] else more
    }

    method IssueState(
      ghost keeps: State -> bool, issuer: string, clientID: string, targetLinkURI: string, loginHint: string,
      messageHint: string, state: string, nonce: string, now: int, faults: set<Statement>)
      returns (refusal: Option<LtiError>, ghost pick: string)
      requires Kept(sessions.cfg, env, keeps) && keeps(Tables(now)) && state !in issued
      modifies this`logins, this`issued
      ensures keeps(Tables(now)) && Finds(platforms, TrimSlashes(issuer), clientID, pick)
      ensures refusal == LoginRefusal(env, platforms, pick, issuer, clientID, targetLinkURI, loginHint, messageHint,
          faults)
      ensures refusal.Some? ==> logins == old(logins)
      ensures refusal.None? ==>
                var login := NewLogin(nonce, TrimSlashes(issuer), clientID, targetLinkURI, now);
                logins == WithLogin(old(logins), state, login, now, AtPurge !in faults)
    {
      var platformID := FindPlatform(TrimSlashes(issuer), clientID);
      pick := if platformID.Some? then platformID.value else "";
      if ByteLen(issuer) > 255 || ByteLen(clientID) > 255 || ByteLen(targetLinkURI) > 500
         || ByteLen(loginHint) > 4096 || ByteLen(messageHint) > 4096
      {
        return Some(InvalidRequest), pick;
      }
      if AtPlatform in faults || platformID.None? {
        return Some(PlatformNotFound), pick;
      }
      var id := platformID.value;
      if TrimSpace(loginHint) == "" {
        return Some(InvalidRequest), pick;
      }
      if !env.sameOrigin(targetLinkURI, platforms[id].toolLaunchURL) {
        return Some(InvalidRequest), pick;
      }
      if AtInsert in faults {
        return Some(NotStored), pick;
      }
      KeptByLogin(
        sessions.cfg, env, keeps, Tables(now),
        Login(issuer, clientID, targetLinkURI, loginHint, id, state, nonce, now));
      var login := NewLogin(nonce, platforms[id].issuer, platforms[id].clientID, targetLinkURI, now);
      logins := logins[state := login];
      issued := issued[state := login];
      if AtPurge !in faults {
        PurgeExpired(keeps, now);
      }
      return None, pick;
    }

    method FindPlatform(issuer: string, clientID: string) returns (platformID: Option<string>)
      ensures platformID.Some? ==> Registered(platforms, platformID.value, issuer, clientID)
      ensures platformID.None? ==> forall i | i in platforms :: !Registered(platforms, i, issuer, clientID)
    {
      if forall i | i in platforms :: !Registered(platforms, i, issuer, clientID) {
        return None;
      }
      var id :| id in platforms && Registered(platforms, id, issuer, clientID);
      return Some(id);
    }

    method PurgeExpired(ghost keeps: State -> bool, now: int)
      requires Kept(sessions.cfg, env, keeps) && keeps(Tables(now))
      modifies this`logins
      ensures keeps(Tables(now))
      ensures logins == map k | k in old(logins) && old(logins)[k].expiresAt >= now :: old(logins)[k]
    {
      KeptByPurge(sessions.cfg, env, keeps, Tables(now), now);
      logins := map k | k in logins && logins[k].expiresAt >= now :: logins[k];
    }

    ghost method MoveTo(l: nat, phase: Phase)
      requires l in launches
      modifies this`launches
      ensures launches == old(launches)[l := old(launches)[l].(phase := phase)]
    {
      launches := launches[l := launches[l].(phase := phase)];
    }

    // What the launch is after a lookup or a check; `ok` is anything that every step keeps.
    ghost method MoveByRead(ok: State -> bool, l: nat, pick: string, claims: Option<Claims>, now: int)
      requires Kept(sessions.cfg, env, ok) && ok(Tables(now))
      requires l in launches && Reads(launches[l]) && LookupOk(Tables(now), launches[l].phase, pick)
      modifies this`launches
      ensures ok(Tables(now))
      ensures var launch := old(launches)[l];
              launches == old(launches)[l := launch.(phase := AfterRead(old(Tables(now)), launch, pick, claims))]
    {
      ghost var t := Tables(now);
      KeptByRead(sessions.cfg, env, ok, t, l, pick, claims);
      MoveTo(l, AfterRead(t, launches[l], pick, claims));
    }

    // A statement of the launch fails.
    ghost method MoveByFailure(ok: State -> bool, l: nat, now: int)
      requires Kept(sessions.cfg, env, ok) && ok(Tables(now)) && l in launches && Running(launches[l])
      modifies this`launches
      ensures ok(Tables(now)) && l in launches
    {
      KeptByFailure(sessions.cfg, env, ok, Tables(now), l);
      MoveTo(l, Refused);
    }

    /**
     A launch with the claims of its verified token; None when verification failed. `l` names the
     launch, `sessionNow` and `freshID` are what StartSession samples and draws. `pick` is the platform
     it finds, and `outcome` what StartSession answered, when it was called.
     */
    method HandleLaunch(
      ghost l: nat, state: string, token: Option<Claims>, now: int, sessionNow: int, freshID: string, faults: Faults)
      returns (result: Result<string, LtiError>, ghost pick: string, ghost outcome: Outcome)
      requires l !in launches
      modifies this`launches, this`logins, this`consumedBy, this`starts, this`links, sessions
      ensures Reaches(sessions.cfg, env, old(Tables(now)), Tables(now))
      ensures Live(old(logins), state, now) ==>
                Finds(platforms, old(logins)[state].issuer, old(logins)[state].clientID, pick)
      ensures Handled(
                old(Tables(now)), l, state, token, now, sessionNow, freshID, faults, result, pick, outcome, Tables(now))
      ensures LaunchAccepted(env, old(Tables(now)), state, now, pick, token, faults.own)
              <==> LaunchRefusal(env, old(Tables(now)), state, now, pick, token, faults.own).None?
    {
      ghost var s := Tables(now);
      ReachingIsKept(sessions.cfg, env, s);
      result, pick, outcome := FollowLaunch(
        t => Reaches(sessions.cfg, env, s, t), l, state, token, now, sessionNow, freshID, faults);
      RefusalsAreExact(env, s, state, now, pick, token, faults.own);
    }

    /**
     A launch with a live state, a complete token that answers it, and a platform that knows the resource,
     while no statement fails, uses the state up and makes the StartSession call for the derived user.
     */
    lemma GoodLaunchStarts(
      s: State, l: nat, state: string, token: Option<Claims>, now: int, sessionNow: int, freshID: string,
      faults: Faults, result: Result<string, LtiError>, pick: string, outcome: Outcome, s': State)
      requires Handled(s, l, state, token, now, sessionNow, freshID, faults, result, pick, outcome, s')
      requires LaunchAccepted(env, s, state, now, pick, token, faults.own)
      requires faults.own == {} && faults.session == {} && freshID !in s.exam.sessions
      ensures s'.logins == s.logins[state := s.logins[state].(usedAt := Some(now))]
      ensures s'.starts == s.starts + [Start(l, state, now, pick, token.value)]
      ensures var key := LinkKey(pick, token.value.deploymentID, token.value.resourceLinkID);
              var call := StartCall(s.mappings[key], UserID(env, s.platforms[pick].issuer, token.value.subject));
              Step(sessions.cfg, s.exam, Event(call, sessionNow, sessionNow, outcome), s'.exam)
      ensures outcome.Started? ==>
                && result == Success(outcome.sessionID)
                && var c, platform := token.value, s.platforms[pick];
                   s'.links == s.links[outcome.sessionID :=
                     Link(LinkKey(pick, c.deploymentID, c.resourceLinkID), platform.issuer, platform.clientID,
                          c.subject, c.lineItem)]
    {
      RefusalsAreExact(env, s, state, now, pick, token, faults.own);
    }

    // A refused launch changes nothing that lasts. Another one uses its state up, makes one
    // StartSession call, and when a session comes of it, writes the session's link row; the call or
    // the row may fail with the database.
    ghost predicate Handled(
      s: State, l: nat, state: string, token: Option<Claims>, now: int, sessionNow: int, freshID: string,
      faults: Faults, result: Result<string, LtiError>, pick: string, outcome: Outcome, s': State)
    {
      var refusal := LaunchRefusal(env, s, state, now, pick, token, faults.own);
      if refusal.Some? then
        && result == Failure(refusal.value) && s'.logins == s.logins && s'.links == s.links
        && s'.exam == s.exam && s'.starts == s.starts
      else
        && s'.logins == s.logins[state := s.logins[state].(usedAt := Some(now))]
        && Answered(s, Start(l, state, now, pick, token.value), sessionNow, freshID, faults, result, outcome, s')
    }

    // A launch that used its state up: the call, the link row, and what they answer.
    ghost predicate Answered(
      s: State, start: Start, sessionNow: int, freshID: string, faults: Faults,
      result: Result<string, LtiError>, outcome: Outcome, s': State)
      requires start.platformID in s.platforms && KeyOf(start.platformID, start.claims) in s.mappings
    {
      && SessionService.StepOrFailure(
           sessions.cfg, s.exam, CallOf(s, start.platformID, start.claims, sessionNow, outcome), s'.exam,
           faults.session != {} || freshID in s.exam.sessions)
      && s'.starts == (if outcome == Failed(DatabaseFailure) then s.starts else s.starts + [start])
      && if outcome.Started? && AtLink !in faults.own then
           && result == Success(outcome.sessionID)
           && s'.links == s.links[outcome.sessionID := LinkOf(s.platforms, start.platformID, start.claims)]
         else
           && s'.links == s.links
           && if outcome.Started? then result == Failure(NotStored)
              else outcome.Failed? && result == Failure(SessionRefused(outcome.error))
    }

    ghost function CallOf(s: State, pick: string, c: Claims, sessionNow: int, outcome: Outcome): Event
      requires pick in s.platforms && KeyOf(pick, c) in s.mappings
    {
      Event(StartCall(s.mappings[KeyOf(pick, c)], UserID(env, s.platforms[pick].issuer, c.subject)), sessionNow,
          sessionNow, outcome)
    }

    method FollowLaunch(
      ghost ok: State -> bool, ghost l: nat, state: string, token: Option<Claims>, now: int, sessionNow: int,
      freshID: string, faults: Faults)
      returns (result: Result<string, LtiError>, ghost pick: string, ghost outcome: Outcome)
      requires Kept(sessions.cfg, env, ok) && ok(Tables(now)) && l !in launches
      modifies this`launches, this`logins, this`consumedBy, this`starts, this`links, sessions
      ensures ok(Tables(now))
      ensures Live(old(logins), state, now) ==>
                Finds(platforms, old(logins)[state].issuer, old(logins)[state].clientID, pick)
      ensures Handled(
                old(Tables(now)), l, state, token, now, sessionNow, freshID, faults, result, pick, outcome, Tables(now))
    {
      outcome := Failed(SessionNotFound);
      var ready;
      ready, pick := PrepareLaunch(ok, l, state, token, now, faults.own);
      if ready.Failure? {
        return Failure(ready.error), pick, outcome;
      }
      result, outcome := AnswerLaunch(
        ok, l, ready.value.0, ready.value.1, token.value, now, sessionNow, freshID, faults);
    }

    // The StartSession call of a launch that used its state up, and the session's link row.
    method AnswerLaunch(
      ghost ok: State -> bool, ghost l: nat, platformID: string, deliveryID: string, claims: Claims, now: int,
      sessionNow: int, freshID: string, faults: Faults)
      returns (result: Result<string, LtiError>, ghost outcome: Outcome)
      requires Kept(sessions.cfg, env, ok) && ok(Tables(now)) && platformID in platforms
      requires l in launches && launches[l].phase.Consumed?
      requires launches[l].phase == Consumed(launches[l].phase.login, platformID, claims, deliveryID)
      requires KeyOf(platformID, claims) in mappings && mappings[KeyOf(platformID, claims)] == deliveryID
      modifies this`launches, this`starts, this`links, sessions
      ensures ok(Tables(now))
      ensures Answered(
                old(Tables(now)), Start(l, old(launches)[l].state, old(launches)[l].now, platformID, claims),
                sessionNow, freshID, faults, result, outcome, Tables(now))
    {
      var answer := StartFor(ok, l, platformID, deliveryID, claims, now, sessionNow, freshID, faults.session);
      outcome := answer;
      if !answer.Started? {
        return Failure(SessionRefused(answer.error)), outcome;
      }
      if AtLink in faults.own {
        MoveByFailure(ok, l, now);
        return Failure(NotStored), outcome;
      }
      WriteLink(ok, l, answer.sessionID, platformID, claims, now);
      return Success(answer.sessionID), outcome;
    }

    // Everything up to the use of the state: platform and delivery, or the refusal.
    method PrepareLaunch(
      ghost ok: State -> bool, ghost l: nat, state: string, token: Option<Claims>, now: int, faults: set<Statement>)
      returns (ready: Result<(string, string), LtiError>, ghost pick: string)
      requires Kept(sessions.cfg, env, ok) && ok(Tables(now)) && l !in launches
      modifies this`launches, this`logins, this`consumedBy
      ensures ok(Tables(now)) && l in launches
      ensures Live(old(logins), state, now) ==>
                Finds(platforms, old(logins)[state].issuer, old(logins)[state].clientID, pick)
      ensures var refusal := LaunchRefusal(env, old(Tables(now)), state, now, pick, token, faults);
              if refusal.Some? then ready == Failure(refusal.value) && logins == old(logins)
              else
                var deliveryID := mappings[KeyOf(pick, token.value)];
                && ready == Success((pick, deliveryID))
                && logins == old(logins)[state := old(logins)[state].(usedAt := Some(now))]
                && launches[l] == Launch(state, now, Consumed(old(logins)[state], pick, token.value, deliveryID))
    {
      KeptByBegin(sessions.cfg, env, ok, Tables(now), l, state);
      launches := launches[l := Launch(state, now, Sampled)];
      var platformID;
      platformID, pick := CheckToken(ok, l, state, token, now, faults);
      if platformID.Failure? {
        return Failure(platformID.error), pick;
      }
      var deliveryID := FindDelivery(ok, l, platformID.value, token.value, now, faults);
      if deliveryID.None? {
        return Failure(ResourceLinkMissing), pick;
      }
      var refusal := UseState(ok, l, state, platformID.value, token.value, now, faults);
      if refusal.Some? {
        return Failure(refusal.value), pick;
      }
      return Success((platformID.value, deliveryID.value)), pick;
    }

    // State, platform and token.
    method CheckToken(
      ghost ok: State -> bool, ghost l: nat, state: string, token: Option<Claims>, now: int, faults: set<Statement>)
      returns (platformID: Result<string, LtiError>, ghost pick: string)
      requires Kept(sessions.cfg, env, ok) && ok(Tables(now)) && l in launches
      requires launches[l] == Launch(state, now, Sampled)
      modifies this`launches
      ensures ok(Tables(now)) && l in launches
      ensures Live(logins, state, now) ==> Finds(platforms, logins[state].issuer, logins[state].clientID, pick)
      ensures var refusal := TokenRefusal(Tables(now), state, now, pick, token, faults);
              platformID == if refusal.Some? then Failure(refusal.value) else Success(pick)
      ensures platformID.Success? <==> TokenAccepted(Tables(now), state, now, pick, token, faults)
      ensures platformID.Success? ==> launches[l] == Launch(state, now, Verified(logins[state], pick, token.value))
    {
      var found := None;
      if Live(logins, state, now) {
        found := FindPlatform(logins[state].issuer, logins[state].clientID);
      }
      pick := if found.Some? then found.value else "";
      if AtState in faults {
        MoveByFailure(ok, l, now);
        return Failure(InvalidState), pick;
      }
      MoveByRead(ok, l, "", None, now);
      if !Live(logins, state, now) {
        return Failure(InvalidState), pick;
      }
      var login := logins[state];
      if AtPlatform in faults {
        MoveByFailure(ok, l, now);
        return Failure(PlatformNotFound), pick;
      }
      MoveByRead(ok, l, pick, None, now);
      if found.None? {
        return Failure(PlatformNotFound), pick;
      }
      MoveByRead(ok, l, "", token, now);
      if token.None? || !ClaimsAccepted(login, token.value) {
        return Failure(InvalidToken), pick;
      }
      return Success(found.value), pick;
    }

    method FindDelivery(
      ghost ok: State -> bool, ghost l: nat, platformID: string, claims: Claims, now: int, faults: set<Statement>)
      returns (deliveryID: Option<string>)
      requires Kept(sessions.cfg, env, ok) && ok(Tables(now))
      requires l in launches && launches[l].phase.Verified? && launches[l].phase.platformID == platformID
      requires launches[l].phase.claims == claims
      modifies this`launches
      ensures ok(Tables(now)) && l in launches
      ensures var key := KeyOf(platformID, claims);
              && (deliveryID.Some? <==> AtMapping !in faults && key in mappings)
              && (deliveryID.Some? ==>
                    && deliveryID.value == mappings[key]
                    && var p := old(launches)[l].phase;
                       launches[l] == old(launches)[l].(phase := Mapped(p.login, platformID, claims, deliveryID.value)))
    {
      if AtMapping in faults {
        MoveByFailure(ok, l, now);
        return None;
      }
      MoveByRead(ok, l, "", None, now);
      var key := LinkKey(platformID, claims.deploymentID, claims.resourceLinkID);
      return if key in mappings then Some(mappings[key]) else None;
    }

    // The line item's checks, and the conditional update.
    method UseState(
      ghost ok: State -> bool, ghost l: nat, state: string, platformID: string, claims: Claims, now: int,
      faults: set<Statement>)
      returns (refusal: Option<LtiError>)
      requires Kept(sessions.cfg, env, ok) && ok(Tables(now)) && platformID in platforms
      requires l in launches && launches[l].state == state && launches[l].now == now
      requires launches[l].phase.Mapped? && launches[l].phase.platformID == platformID
      requires launches[l].phase.claims == claims
      modifies this`launches, this`logins, this`consumedBy
      ensures ok(Tables(now)) && l in launches
      ensures refusal == if !LineItemAccepted(env, platforms[platformID], claims) then Some(InvalidToken)
                         else if AtUse in faults || !Live(old(logins), state, now) then Some(InvalidState)
                         else None
      ensures refusal.Some? ==> logins == old(logins)
      ensures refusal.None? ==>
                && logins == old(logins)[state := old(logins)[state].(usedAt := Some(now))]
                && var p := old(launches)[l].phase;
                   launches[l] == old(launches)[l].(phase := Consumed(p.login, platformID, claims, p.deliveryID))
    {
      ghost var p := launches[l].phase;
      KeptByConsumption(sessions.cfg, env, ok, Tables(now), l);
      if !LineItemAccepted(env, platforms[platformID], claims) {
        MoveTo(l, Refused);
        return Some(InvalidToken);
      }
      if AtUse in faults {
        KeptByFailure(sessions.cfg, env, ok, Tables(now), l);
        MoveTo(l, Refused);
        return Some(InvalidState);
      }
      if !Live(logins, state, now) {
        MoveTo(l, Refused);
        return Some(InvalidState);
      }
      logins := logins[state := logins[state].(usedAt := Some(now))];
      consumedBy := consumedBy[state := l];
      MoveTo(l, Consumed(p.login, p.platformID, p.claims, p.deliveryID));
      return None;
    }

    // The StartSession call; one that fails with the database is no start.
    method StartFor(
      ghost ok: State -> bool, ghost l: nat, platformID: string, deliveryID: string, claims: Claims,
      now: int, sessionNow: int, freshID: string, faults: set<SessionService.Statement>)
      returns (outcome: Outcome)
      requires Kept(sessions.cfg, env, ok) && ok(Tables(now)) && platformID in platforms
      requires l in launches && launches[l].phase.Consumed?
      requires launches[l].phase == Consumed(launches[l].phase.login, platformID, claims, deliveryID)
      modifies this`launches, this`starts, sessions
      ensures ok(Tables(now)) && l in launches
      ensures starts == if outcome == Failed(DatabaseFailure) then old(starts)
                        else old(starts) + [Start(l, old(launches)[l].state, old(launches)[l].now, platformID, claims)]
      ensures outcome.Started? || outcome.Failed?
      ensures SessionService.StepOrFailure(
                sessions.cfg, old(sessions.Tables()),
                Event(
                  StartCall(deliveryID, UserID(env, platforms[platformID].issuer, claims.subject)),
                  sessionNow, sessionNow, outcome),
                sessions.Tables(), faults != {} || freshID in old(sessions.sessions))
      ensures outcome.Started? ==>
                var p := old(launches)[l].phase;
                launches[l] == old(launches)[l].(
                  phase := SessionStarted(p.login, platformID, claims, deliveryID, outcome.sessionID))
    {
      ghost var t := Tables(now);
      var userID := UserID(env, platforms[platformID].issuer, claims.subject);
      outcome := sessions.StartSession(deliveryID, userID, sessionNow, freshID, faults);
      if outcome == Failed(DatabaseFailure) {
        MoveByFailure(ok, l, now);
      } else {
        RecordStart(ok, t, l, Event(StartCall(deliveryID, userID), sessionNow, sessionNow, outcome), now);
      }
    }

    // The launch after its StartSession call, made in state t.
    ghost method RecordStart(ok: State -> bool, t: State, l: nat, ev: Event, now: int)
      requires Kept(sessions.cfg, env, ok) && ok(t) && t.(exam := sessions.Tables()) == Tables(now)
      requires l in launches && CallsFor(env, t, launches[l], ev.call)
          && Step(sessions.cfg, t.exam, ev, sessions.Tables())
      modifies this`launches, this`starts
      ensures ok(Tables(now)) && l in launches
      ensures starts == old(starts)
          + [Start(l, old(launches)[l].state, old(launches)[l].now, old(launches)[l].phase.platformID,
                   old(launches)[l].phase.claims)]
      ensures ev.outcome.Started? ==>
                var p := old(launches)[l].phase;
                launches[l] == old(launches)[l].(
                  phase := SessionStarted(p.login, p.platformID, p.claims, p.deliveryID, ev.outcome.sessionID))
    {
      KeptByStart(sessions.cfg, env, ok, t, l, ev, sessions.Tables());
      var s' := StartCalled(t, l, ev.outcome, sessions.Tables());
      launches, starts := s'.launches, s'.starts;
    }

    method WriteLink(
        ghost ok: State -> bool, ghost l: nat, sessionID: string, platformID: string, claims: Claims, now: int)
      requires Kept(sessions.cfg, env, ok) && ok(Tables(now)) && platformID in platforms && l in launches
      requires launches[l].phase.SessionStarted?
      requires launches[l].phase.platformID == platformID && launches[l].phase.claims == claims
      requires launches[l].phase.sessionID == sessionID
      modifies this`launches, this`links
      ensures ok(Tables(now))
      ensures links == old(links)[sessionID := LinkOf(platforms, platformID, claims)]
    {
      KeptByLink(sessions.cfg, env, ok, Tables(now), l);
      var platform := platforms[platformID];
      links := links[sessionID := Link(
        LinkKey(platformID, claims.deploymentID, claims.resourceLinkID),
        platform.issuer, platform.clientID, claims.subject, claims.lineItem)];
      MoveTo(l, Launched(sessionID));
    }
  }

  /** Trimming takes all slashes at the end, and nothing else. */
  lemma {:induction false} TrimSlashesTakesSlashes(x: string) returns (slashes: string)
    ensures x == TrimSlashes(x) + slashes && forall c | c in slashes :: c == '/'
    ensures TrimSlashes(x) != "" ==> TrimSlashes(x)[|TrimSlashes(x)| - 1] != '/'
  {
    if x != "" && x[|x| - 1] == '/' {
      var rest := TrimSlashesTakesSlashes(x[..|x| - 1]);
      slashes := rest + [x[|x| - 1]];
      assert x == TrimSlashes(x) + slashes;
    } else {
      slashes := "";
    }
  }

  lemma {:induction false} TrimSlashesOnce(x: string)
    ensures TrimSlashes(TrimSlashes(x)) == TrimSlashes(x)
  {
    if x != "" && x[|x| - 1] == '/' {
      TrimSlashesOnce(x[..|x| - 1]);
    }
  }
}
