/**
 Safety of LTI launches over whole runs: one login starts at most one session, a link row always
 names the user whose session it is, and a returned grade is that user's.
 */
module LtiSafety {
  import opened Wrappers
  import opened Text
  import opened Assessment
  import opened SessionSpec
  import opened SessionLaws
  import opened LtiLaunch
  import opened LtiTheorems

  // ---- runs ----

  ghost predicate IsRun(cfg: Config, env: Env, s: State, run: seq<Action>)
    decreases |run|
  {
    run != [] ==> Enabled(cfg, env, s, run[0]) && IsRun(cfg, env, Apply(cfg, env, s, run[0]), run[1..])
  }

  ghost function After(cfg: Config, env: Env, s: State, run: seq<Action>): State
    requires IsRun(cfg, env, s, run)
    decreases |run|
  {
    if run == [] then s else After(cfg, env, Apply(cfg, env, s, run[0]), run[1..])
  }

  ghost predicate Good(cfg: Config, env: Env, s: State) {
    TablesOk(cfg, s.exam) && Inv(env, s)
  }

  lemma InitIsGood(cfg: Config, env: Env, s: State)
    requires Init(cfg, s)
    ensures Good(cfg, env, s)
  {
  }

  // What is registered, issued, consumed or linked stays so.
  ghost predicate Extends(s: State, s': State) {
    Grows(s, s') && s.links.Keys <= s'.links.Keys
  }

  lemma GrowsTransitive(s: State, t: State, u: State)
    requires Grows(s, t) && Grows(t, u)
    ensures Grows(s, u)
  {
    EvolvesTransitive(s.exam, t.exam, u.exam);
  }

  // Whether the action marks its launch's state as used.
  predicate Consumes(env: Env, s: State, a: Action) {
    && a.Advance? && a.l in s.launches && s.launches[a.l].phase.Mapped?
        && s.launches[a.l].phase.platformID in s.platforms
    && Consume(env, s, a.l).launches[a.l].phase.Consumed?
  }

  lemma ConsumptionExtends(env: Env, s: State, a: Action)
    requires Inv(env, s) && Consumes(env, s, a)
    ensures var s', k := Consume(env, s, a.l), s.launches[a.l].state;
            Extends(s, s') && k !in s.consumedBy && k in s'.consumedBy && s'.consumedBy[k] == a.l
  {
    var launch, s' := s.launches[a.l], Consume(env, s, a.l);
    UseIsFirst(env, s, a.l, launch.state, launch.now);
    GrowsBy(s, Used(s, a.l, launch.state, launch.now), s');
  }

  lemma GrowsBy(s: State, t: State, t': State)
    requires Grows(s, t)
    requires t'.exam == t.exam && t'.platforms == t.platforms && t'.mappings == t.mappings
    requires t'.issued == t.issued && t'.consumedBy == t.consumedBy
    ensures Grows(s, t')
  {
  }

  // The actions that call into the session tables.
  predicate CallsSession(s: State, a: Action) {
    a.OtherCall? || (a.Advance? && a.l in s.launches && s.launches[a.l].phase.Consumed?)
  }

  lemma SessionActionExtends(cfg: Config, env: Env, s: State, a: Action)
    requires TablesOk(cfg, s.exam) && Enabled(cfg, env, s, a) && CallsSession(s, a)
    ensures Extends(s, Apply(cfg, env, s, a))
  {
    StepEvolves(cfg, s.exam, a.ev, a.exam);
    GrowsBy(s, s.(exam := a.exam), Apply(cfg, env, s, a));
  }

  lemma RegistryActionExtends(cfg: Config, env: Env, s: State, a: Action)
    requires Enabled(cfg, env, s, a) && (a.RegisterPlatform? || a.RegisterResourceLink? || a.Login?)
    ensures Extends(s, Apply(cfg, env, s, a))
  {
    EvolvesReflexive(s.exam);
  }

  lemma QuietActionExtends(cfg: Config, env: Env, s: State, a: Action)
    requires Enabled(cfg, env, s, a) && (a.Tick? || a.Purge? || a.Begin? || a.Fail?)
    ensures Extends(s, Apply(cfg, env, s, a))
  {
    Same(s, Apply(cfg, env, s, a));
  }

  lemma ReadingExtends(cfg: Config, env: Env, s: State, a: Action)
    requires Enabled(cfg, env, s, a) && a.Advance? && !CallsSession(s, a) && !Consumes(env, s, a)
    ensures Extends(s, Apply(cfg, env, s, a))
  {
    var launch := s.launches[a.l];
    if launch.phase.SessionStarted? {
      LinkExtends(s, a.l);
    } else if launch.phase.Mapped? {
      RefusalExtends(env, s, a.l);
    } else {
      PutExtends(s, a.l, AfterRead(s, launch, a.pick, a.claims));
    }
  }

  lemma RefusalExtends(env: Env, s: State, l: nat)
    requires l in s.launches && s.launches[l].phase.Mapped? && s.launches[l].phase.platformID in s.platforms
    requires !Consume(env, s, l).launches[l].phase.Consumed?
    ensures Extends(s, Consume(env, s, l))
  {
    PutExtends(s, l, Refused);
  }

  lemma PutExtends(s: State, l: nat, phase: Phase)
    requires l in s.launches
    ensures Extends(s, Put(s, l, phase))
  {
    Same(s, Put(s, l, phase));
  }

  lemma LinkExtends(s: State, l: nat)
    requires l in s.launches && s.launches[l].phase.SessionStarted? && s.launches[l].phase.platformID in s.platforms
    ensures Extends(s, SaveLink(s, l))
  {
    Same(s, SaveLink(s, l));
  }

  lemma ActionExtends(cfg: Config, env: Env, s: State, a: Action)
    requires Good(cfg, env, s) && Enabled(cfg, env, s, a)
    ensures Extends(s, Apply(cfg, env, s, a))
  {
    if Consumes(env, s, a) {
      ConsumptionExtends(env, s, a);
    } else if CallsSession(s, a) {
      SessionActionExtends(cfg, env, s, a);
    } else if a.RegisterPlatform? || a.RegisterResourceLink? || a.Login? {
      RegistryActionExtends(cfg, env, s, a);
    } else if a.Advance? {
      ReadingExtends(cfg, env, s, a);
    } else {
      QuietActionExtends(cfg, env, s, a);
    }
  }

  lemma ActionKeepsTables(cfg: Config, env: Env, s: State, a: Action)
    requires TablesOk(cfg, s.exam) && Enabled(cfg, env, s, a)
    ensures TablesOk(cfg, Apply(cfg, env, s, a).exam)
  {
    if CallsSession(s, a) {
      StepKeepsTables(cfg, s.exam, a.ev, a.exam);
    }
  }

  lemma {:induction false} RunKeepsInv(cfg: Config, env: Env, s: State, run: seq<Action>)
    requires EnvOk(env) && Good(cfg, env, s) && IsRun(cfg, env, s, run)
    ensures Good(cfg, env, After(cfg, env, s, run)) && Extends(s, After(cfg, env, s, run))
    decreases |run|
  {
    if run == [] {
      EvolvesReflexive(s.exam);
    } else {
      var s' := Apply(cfg, env, s, run[0]);
      ActionKeepsInv(cfg, env, s, run[0]);
      ActionKeepsTables(cfg, env, s, run[0]);
      ActionExtends(cfg, env, s, run[0]);
      RunKeepsInv(cfg, env, s', run[1..]);
      GrowsTransitive(s, s', After(cfg, env, s, run));
    }
  }

  // A run leads from s to t.
  ghost predicate Reaches(cfg: Config, env: Env, s: State, t: State) {
    exists run :: IsRun(cfg, env, s, run) && After(cfg, env, s, run) == t
  }

  lemma ReachesSelf(cfg: Config, env: Env, s: State)
    ensures Reaches(cfg, env, s, s)
  {
    assert IsRun(cfg, env, s, []) && After(cfg, env, s, []) == s;
  }

  lemma {:induction false} RunThenAction(cfg: Config, env: Env, s: State, run: seq<Action>, a: Action)
    requires IsRun(cfg, env, s, run) && Enabled(cfg, env, After(cfg, env, s, run), a)
    ensures IsRun(cfg, env, s, run + [a])
    ensures After(cfg, env, s, run + [a]) == Apply(cfg, env, After(cfg, env, s, run), a)
    decreases |run|
  {
    if run == [] {
      assert [] + [a] == [a] && [a][1..] == [];
    } else {
      RunThenAction(cfg, env, Apply(cfg, env, s, run[0]), run[1..], a);
      assert (run + [a])[1..] == run[1..] + [a] && (run + [a])[0] == run[0];
    }
  }

  lemma ReachesNext(cfg: Config, env: Env, s: State, t: State, a: Action)
    requires Reaches(cfg, env, s, t) && Enabled(cfg, env, t, a)
    ensures Reaches(cfg, env, s, Apply(cfg, env, t, a))
  {
    var run :| IsRun(cfg, env, s, run) && After(cfg, env, s, run) == t;
    RunThenAction(cfg, env, s, run, a);
  }

  // ---- one login, one session call ----

  /**
   A state is consumed at most once: two consumptions in one run, whatever lies between them, are of
   different states.
   */
  lemma StatesAreConsumedOnce(cfg: Config, env: Env, s: State, a: Action, between: seq<Action>, b: Action)
    requires EnvOk(env) && Good(cfg, env, s) && Enabled(cfg, env, s, a) && Consumes(env, s, a)
    requires IsRun(cfg, env, Apply(cfg, env, s, a), between)
    requires var t := After(cfg, env, Apply(cfg, env, s, a), between); Enabled(cfg, env, t, b) && Consumes(env, t, b)
    ensures After(cfg, env, Apply(cfg, env, s, a), between).launches[b.l].state != s.launches[a.l].state
  {
    var s' := Apply(cfg, env, s, a);
    var t := After(cfg, env, s', between);
    ConsumptionExtends(env, s, a);
    ActionKeepsInv(cfg, env, s, a);
    ActionKeepsTables(cfg, env, s, a);
    RunKeepsInv(cfg, env, s', between);
    ConsumptionExtends(env, t, b);
  }

  // A resource-link launch for this login, about a subject, a deployment, a resource and at least one role.
  predicate Answers(c: Claims, nonce: string, target: string) {
    && c.nonce == nonce && c.targetLinkURI == target
    && c.messageType == "LtiResourceLinkRequest" && c.version == "1.3.0" && c.issuedAt
    && c.subject != "" && c.deploymentID != "" && c.resourceLinkID != "" && |c.roles| > 0
  }

  // The platform has this issuer and client, knows the resource, and may be sent the grade, if the token
  // asks for that.
  predicate Serves(env: Env, s: State, platformID: string, issuer: string, clientID: string, c: Claims) {
    && platformID in s.platforms
    && s.platforms[platformID].issuer == issuer && s.platforms[platformID].clientID == clientID
    && LinkKey(platformID, c.deploymentID, c.resourceLinkID) in s.mappings
    && (c.lineItem == ""
        || ("https://purl.imsglobal.org/spec/lti-ags/scope/score" in c.scopes
            && env.lineItemAllowed(s.platforms[platformID], c.lineItem)))
  }

  /**
   After any interleaving, each StartSession call of a launch was made by the launch that consumed its
   state, with a clock sample before the state expired, and for a complete token that answers the login
   that issued the state and comes from the platform of that login.
   */
  lemma SessionCallsAnswerTheirLogin(cfg: Config, env: Env, s: State, run: seq<Action>, i: nat)
    requires EnvOk(env) && Init(cfg, s) && IsRun(cfg, env, s, run)
    requires i < |After(cfg, env, s, run).starts|
    ensures var t := After(cfg, env, s, run); var call := t.starts[i];
            && call.state in t.issued && call.state in t.consumedBy && t.consumedBy[call.state] == call.launch
            && var login := t.issued[call.state];
               && call.now < login.expiresAt
               && Answers(call.claims, login.nonce, login.targetLinkURI)
               && Serves(env, t, call.platformID, login.issuer, login.clientID, call.claims)
  {
    InitIsGood(cfg, env, s);
    RunKeepsInv(cfg, env, s, run);
    var t := After(cfg, env, s, run);
    assert StartOk(env, t, t.starts[i]);
  }

  /** A login state starts sessions for five minutes after its login, whatever happens in between. */
  lemma LoginsLastFiveMinutes(cfg: Config, env: Env, s: State, a: Action, run: seq<Action>, i: nat)
    requires EnvOk(env) && Good(cfg, env, s) && a.Login? && Enabled(cfg, env, s, a)
    requires IsRun(cfg, env, Apply(cfg, env, s, a), run)
    requires var starts := After(cfg, env, Apply(cfg, env, s, a), run).starts;
             i < |starts| && starts[i].state == a.state
    ensures After(cfg, env, Apply(cfg, env, s, a), run).starts[i].now < a.now + 300_000_000_000
  {
    var s' := Apply(cfg, env, s, a);
    ActionKeepsInv(cfg, env, s, a);
    RunKeepsInv(cfg, env, s', run);
    var t := After(cfg, env, s', run);
    assert StartOk(env, t, t.starts[i]) && a.state in s'.issued;
  }

  /** After any interleaving, no two StartSession calls of launches are for one state. */
  lemma OneSessionCallPerLogin(cfg: Config, env: Env, s: State, run: seq<Action>, i: nat, j: nat)
    requires EnvOk(env) && Init(cfg, s) && IsRun(cfg, env, s, run)
    requires i < |After(cfg, env, s, run).starts| && j < |After(cfg, env, s, run).starts| && i != j
    ensures After(cfg, env, s, run).starts[i].state != After(cfg, env, s, run).starts[j].state
  {
    InitIsGood(cfg, env, s);
    RunKeepsInv(cfg, env, s, run);
  }

  // ---- link rows ----

  /**
   After any interleaving, a link row agrees with its session: the user name derived from the link's
   issuer and subject is the session's owner, and the mapping of the link's platform, deployment and
   resource leads to the session's delivery.
   */
  lemma LinkRowsNameTheirOwners(cfg: Config, env: Env, s: State, run: seq<Action>, x: string)
    requires EnvOk(env) && Init(cfg, s) && IsRun(cfg, env, s, run) && x in After(cfg, env, s, run).links
    ensures var t := After(cfg, env, s, run);
            && x in t.exam.sessions
            && t.exam.sessions[x].userID == UserID(env, t.links[x].issuer, t.links[x].subject)
            && t.links[x].key in t.mappings
            && t.exam.sessions[x].deliveryID == TrimSpace(t.mappings[t.links[x].key])
  {
    InitIsGood(cfg, env, s);
    RunKeepsInv(cfg, env, s, run);
    var t := After(cfg, env, s, run);
    assert LinkOk(env, t, x, t.links[x]);
  }

  // A link whose issuer and subject give the user name, and whose issuer is free of NUL.
  predicate NamesUser(env: Env, link: Link, userID: string) {
    NUL !in link.issuer && userID == UserID(env, link.issuer, link.subject)
  }

  lemma LinkNamesOwner(env: Env, s: State, x: string)
    requires PlatformsOk(s) && LinksOk(env, s) && x in s.links
    ensures x in s.exam.sessions && NamesUser(env, s.links[x], s.exam.sessions[x].userID)
  {
    assert LinkOk(env, s, x, s.links[x]);
  }

  lemma UserHasOneName(env: Env, link: Link, other: Link, userID: string)
    requires EnvOk(env) && NamesUser(env, link, userID) && NamesUser(env, other, userID)
    ensures link.issuer == other.issuer && link.subject == other.subject
  {
    UserIDInjective(env, link.issuer, link.subject, other.issuer, other.subject);
  }

  // A link row names the one issuer and subject whose user name is the owner's.
  lemma OwnerDeterminesSubject(env: Env, s: State, x: string, issuer: string, subject: string)
    requires EnvOk(env) && Inv(env, s) && x in s.links && NUL !in issuer
    requires x in s.exam.sessions && s.exam.sessions[x].userID == UserID(env, issuer, subject)
    ensures s.links[x].issuer == issuer && s.links[x].subject == subject
  {
    LinkNamesOwner(env, s, x);
    UserIDInjective(env, s.links[x].issuer, s.links[x].subject, issuer, subject);
  }

  lemma SessionKept(s: State, t: State, x: string)
    requires Evolves(s.exam, t.exam) && x in s.exam.sessions
    ensures x in t.exam.sessions && t.exam.sessions[x].userID == s.exam.sessions[x].userID
    ensures s.exam.sessions[x].status == Completed ==> t.exam.sessions[x] == s.exam.sessions[x]
  {
    assert SessionEvolves(s.exam, t.exam, x);
  }

  /** Relaunching never changes whom a link row names. */
  lemma RelaunchKeepsTheSubject(cfg: Config, env: Env, s: State, run: seq<Action>, x: string)
    requires EnvOk(env) && Good(cfg, env, s) && IsRun(cfg, env, s, run) && x in s.links
    ensures var t := After(cfg, env, s, run);
            x in t.links && t.links[x].issuer == s.links[x].issuer && t.links[x].subject == s.links[x].subject
  {
    var t := After(cfg, env, s, run);
    RunKeepsInv(cfg, env, s, run);
    LinkNamesOwner(env, s, x);
    LinkNamesOwner(env, t, x);
    SessionKept(s, t, x);
    UserHasOneName(env, t.links[x], s.links[x], s.exam.sessions[x].userID);
  }

  // ---- grades ----

  datatype Grade = Grade(userID: string, scoreGiven: real, scoreMaximum: real)

  // The grade that is sent for a session; None when nothing is sent.
  function GradeFor(cfg: Config, s: State, x: string): Option<Grade>
    requires x in s.exam.sessions
  {
    if x !in s.links || s.links[x].lineItem == "" then None
    else
      var maximum := DeliveryMaximumScore(cfg, s.exam.sessions[x].deliveryID);
      if maximum.None? then None
      else Some(Grade(s.links[x].subject, s.exam.sessions[x].totalScore, maximum.value))
  }

  /**
   A grade sent for a completed session, after any interleaving, names the subject whose session it
   is and no other subject; what it gives is the sum of the session's marked rows and lies between
   zero and its maximum.
   */
  lemma GradesBelongToTheirSubject(
      cfg: Config, env: Env, s: State, run: seq<Action>, x: string, issuer: string, subject: string,
      points: map<int, real>)
    requires EnvOk(env) && Init(cfg, s) && IsRun(cfg, env, s, run) && NUL !in issuer
    requires var e := After(cfg, env, s, run).exam;
             && x in e.sessions && e.sessions[x].status == Completed
                 && e.sessions[x].userID == UserID(env, issuer, subject)
             && ArePoints(cfg, e.sessions[x].deliveryID, cfg.testItems, points)
             && forall i | i in points :: points[i] >= 0.0
    requires GradeFor(cfg, After(cfg, env, s, run), x).Some?
    ensures var t := After(cfg, env, s, run); var grade := GradeFor(cfg, t, x).value;
            && grade.userID == subject
            && grade.scoreGiven == Sum(Scores(Rows(t.exam, x)))
            && 0.0 <= grade.scoreGiven <= grade.scoreMaximum == Sum(points)
  {
    var t := After(cfg, env, s, run);
    InitIsGood(cfg, env, s);
    RunKeepsInv(cfg, env, s, run);
    OwnerDeterminesSubject(env, t, x, issuer, subject);
    TotalWithinReportedMaximum(cfg, t.exam, x, points);
    assert RowsOk(cfg, t.exam.sessions[x], Rows(t.exam, x), t.exam.log[x]);
  }

  /**
   A grade is sent exactly when the session has a link row with a line item and its test has points to
   get. It gives the session's total out of the sum of the points: the maximum of each row's item times
   the row's weight.
   */
  lemma GradeIsTotalOutOfPoints(cfg: Config, s: State, x: string, points: map<int, real>)
    requires x in s.exam.sessions && ArePoints(cfg, s.exam.sessions[x].deliveryID, cfg.testItems, points)
    ensures GradeFor(cfg, s, x) ==
            if x in s.links && s.links[x].lineItem != "" && Sum(points) > 0.0 then
              Some(Grade(s.links[x].subject, s.exam.sessions[x].totalScore, Sum(points)))
            else None
  {
    ReportedMaximumIsSum(cfg, s.exam.sessions[x].deliveryID, points);
  }

  /** A grade for right answers to all items of a test, each in it once, gives the maximum. */
  lemma AllRightIsFullGrade(cfg: Config, env: Env, s: State, run: seq<Action>, x: string, points: map<int, real>)
    requires EnvOk(env) && Init(cfg, s) && IsRun(cfg, env, s, run)
    requires var e := After(cfg, env, s, run).exam;
             && x in e.sessions && e.sessions[x].status == Completed
             && ArePoints(cfg, e.sessions[x].deliveryID, cfg.testItems, points) && AllRight(cfg, points, Rows(e, x))
    requires GradeFor(cfg, After(cfg, env, s, run), x).Some?
    ensures var grade := GradeFor(cfg, After(cfg, env, s, run), x).value;
            grade.scoreGiven == grade.scoreMaximum == Sum(points)
  {
    var t := After(cfg, env, s, run);
    InitIsGood(cfg, env, s);
    RunKeepsInv(cfg, env, s, run);
    GradeIsTotalOutOfPoints(cfg, t, x, points);
    AllRightGetsAllPoints(cfg, t.exam, x, points);
  }

  /** Grades sent for a completed session at different times agree, whatever happens in between. */
  lemma GradesAgree(cfg: Config, env: Env, s: State, run: seq<Action>, x: string)
    requires EnvOk(env) && Good(cfg, env, s) && IsRun(cfg, env, s, run)
    requires x in s.exam.sessions && s.exam.sessions[x].status == Completed && GradeFor(cfg, s, x).Some?
    ensures x in After(cfg, env, s, run).exam.sessions
    ensures var t := After(cfg, env, s, run); GradeFor(cfg, t, x).Some? ==> GradeFor(cfg, t, x) == GradeFor(cfg, s, x)
  {
    var t := After(cfg, env, s, run);
    RunKeepsInv(cfg, env, s, run);
    SessionKept(s, t, x);
    RelaunchKeepsTheSubject(cfg, env, s, run, x);
  }
}
