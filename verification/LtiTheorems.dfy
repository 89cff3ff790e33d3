/** What holds over every interleaving of logins, purges, launches and session calls. */
module LtiTheorems {
  import opened Wrappers
  import opened Text
  import opened Assessment
  import opened SessionSpec
  import opened SessionLaws
  import opened LtiLaunch

  // ---- user names ----

  lemma NamesInjective(i: string, a: string, j: string, b: string)
    requires NUL !in i && NUL !in j && i + [NUL] + a == j + [NUL] + b
    ensures i == j && a == b
  {
    var whole := i + [NUL] + a;
    assert whole[|i|] == NUL && whole[|j|] == NUL;
    assert forall k | 0 <= k < |i| :: whole[k] == i[k];
    assert forall k | 0 <= k < |j| :: whole[k] == j[k];
    assert |i| == |j|;
    assert i == whole[..|i|] == j;
    assert a == whole[|i| + 1..] == b;
  }

  // The user name of a launch determines the issuer and the subject.
  lemma UserIDInjective(env: Env, i: string, a: string, j: string, b: string)
    requires EnvOk(env) && NUL !in i && NUL !in j && UserID(env, i, a) == UserID(env, j, b)
    ensures i == j && a == b
  {
    assert UserID(env, i, a)[4..] == env.digest(i + [NUL] + a);
    assert UserID(env, j, b)[4..] == env.digest(j + [NUL] + b);
    NamesInjective(i, a, j, b);
  }

  lemma UserIDIsTrimmed(env: Env, i: string, a: string)
    requires EnvOk(env)
    ensures TrimSpace(UserID(env, i, a)) == UserID(env, i, a) && "lti:" <= UserID(env, i, a)
  {
    var id, digest := UserID(env, i, a), env.digest(i + [NUL] + a);
    assert id[0] == 'l' && !IsSpace(id[0]);
    if digest != "" {
      assert id[|id| - 1] == digest[|digest| - 1] && digest[|digest| - 1] in digest;
    } else {
      assert id == "lti:";
    }
  }

  // ---- facts that outlast other steps ----

  // Rows of these tables are added and never changed, and sessions keep their owners.
  ghost predicate Grows(s: State, s': State) {
    && (forall k | k in s.platforms :: k in s'.platforms && s'.platforms[k] == s.platforms[k])
    && (forall k | k in s.mappings :: k in s'.mappings && s'.mappings[k] == s.mappings[k])
    && (forall k | k in s.issued :: k in s'.issued && s'.issued[k] == s.issued[k])
    && (forall k | k in s.consumedBy :: k in s'.consumedBy && s'.consumedBy[k] == s.consumedBy[k])
    && Evolves(s.exam, s'.exam)
  }

  lemma Same(s: State, s': State)
    requires s'.exam == s.exam && s'.platforms == s.platforms && s'.mappings == s.mappings
    requires s'.issued == s.issued && s'.consumedBy == s.consumedBy
    ensures Grows(s, s')
  {
    EvolvesReflexive(s.exam);
  }

  // No call was made yet for a state that a launch is about to start a session for.
  ghost predicate Unstarted(s: State, launch: Launch) {
    launch.phase.Consumed? ==> forall i | 0 <= i < |s.starts| :: s.starts[i].state != launch.state
  }

  lemma LaunchStable(env: Env, s: State, s': State, l: nat, launch: Launch)
    requires LaunchOk(env, s, l, launch) && Grows(s, s') && Unstarted(s', launch)
    ensures LaunchOk(env, s', l, launch)
  {
    if launch.phase.SessionStarted? {
      assert SessionEvolves(s.exam, s'.exam, launch.phase.sessionID);
    }
  }

  lemma LinksStable(env: Env, s: State, s': State)
    requires LinksOk(env, s) && Grows(s, s') && s'.links == s.links
    ensures LinksOk(env, s')
  {
    forall x | x in s'.links ensures LinkOk(env, s', x, s'.links[x]) {
      assert LinkOk(env, s, x, s.links[x]);
      assert SessionEvolves(s.exam, s'.exam, x);
    }
  }

  lemma StartsStable(env: Env, s: State, s': State)
    requires StartsOk(env, s) && Grows(s, s') && s'.starts == s.starts
    ensures StartsOk(env, s')
  {
    forall i | 0 <= i < |s'.starts| ensures StartOk(env, s', s'.starts[i]) {
      assert StartOk(env, s, s.starts[i]);
    }
  }

  // The launches that move may rely on their new phases; the others stay as they are.
  ghost predicate MovesOk(env: Env, s: State, s': State) {
    forall l | l in s'.launches ::
      (l in s.launches && s'.launches[l] == s.launches[l]) || LaunchOk(env, s', l, s'.launches[l])
  }

  lemma LaunchesStable(env: Env, s: State, s': State)
    requires LaunchesOk(env, s) && Grows(s, s') && s'.starts == s.starts && MovesOk(env, s, s')
    ensures LaunchesOk(env, s')
  {
    forall l | l in s'.launches ensures LaunchOk(env, s', l, s'.launches[l]) {
      if l in s.launches && s'.launches[l] == s.launches[l] {
        assert LaunchOk(env, s, l, s.launches[l]);
        LaunchStable(env, s, s', l, s.launches[l]);
      }
    }
  }

  // A step that starts nothing and links nothing keeps the invariant.
  lemma QuietStep(env: Env, s: State, s': State)
    requires Inv(env, s) && Grows(s, s') && s'.starts == s.starts && s'.links == s.links
    requires PlatformsOk(s') && StatesOk(s') && MovesOk(env, s, s')
    ensures Inv(env, s')
  {
    LaunchesStable(env, s, s');
    StartsStable(env, s, s');
    LinksStable(env, s, s');
  }

  // A launch that moves on by reading keeps the invariant when it may rely on its new phase.
  lemma LaunchReads(env: Env, s: State, l: nat, launch: Launch)
    requires Inv(env, s) && LaunchOk(env, s, l, launch)
    ensures Inv(env, s.(launches := s.launches[l := launch]))
  {
    var s' := s.(launches := s.launches[l := launch]);
    Same(s, s');
    LaunchStable(env, s, s', l, launch);
    QuietStep(env, s, s');
  }

  // ---- what a step leaves alone ----

  // The launch's StartSession call gave it a session.
  predicate HasSession(launch: Launch) {
    launch.phase.SessionStarted? || launch.phase.Launched?
  }

  // The launches stay as they are but for one, and time stands still.
  ghost predicate MovesOne(s: State, s': State, l: nat) {
    s'.clock == s.clock && l in s'.launches && s'.launches == s.launches[l := s'.launches[l]]
  }

  lemma ConsumptionMovesOne(env: Env, s: State, l: nat)
    requires l in s.launches && s.launches[l].phase.Mapped? && s.launches[l].phase.platformID in s.platforms
    ensures MovesOne(s, Consume(env, s, l), l) && Consume(env, s, l).exam == s.exam
    ensures !HasSession(Consume(env, s, l).launches[l])
  {
  }

  lemma LinkMovesOne(s: State, l: nat)
    requires l in s.launches && s.launches[l].phase.SessionStarted? && s.launches[l].phase.platformID in s.platforms
    ensures MovesOne(s, SaveLink(s, l), l) && SaveLink(s, l).exam == s.exam
  {
  }

  lemma AdvanceMovesOne(cfg: Config, env: Env, s: State, a: Action)
    requires Enabled(cfg, env, s, a) && a.Advance? && !s.launches[a.l].phase.Consumed?
    ensures MovesOne(s, Apply(cfg, env, s, a), a.l) && Apply(cfg, env, s, a).exam == s.exam
    ensures HasSession(Apply(cfg, env, s, a).launches[a.l]) ==> HasSession(s.launches[a.l])
  {
    if s.launches[a.l].phase.Mapped? {
      ConsumptionMovesOne(env, s, a.l);
    } else if s.launches[a.l].phase.SessionStarted? {
      LinkMovesOne(s, a.l);
    } else {
      assert Apply(cfg, env, s, a) == Put(s, a.l, AfterRead(s, s.launches[a.l], a.pick, a.claims));
    }
  }

  lemma OutsideMovesNone(cfg: Config, env: Env, s: State, a: Action)
    requires Enabled(cfg, env, s, a) && !a.Advance? && !a.Fail? && !a.Begin?
    ensures Apply(cfg, env, s, a).launches == s.launches
  {
  }

  // ---- a launch that reads ----

  // What a launch reads is what it may rely on.
  lemma ReadIsOk(env: Env, s: State, l: nat, launch: Launch, pick: string, claims: Option<Claims>)
    requires StatesOk(s) && Reads(launch) && LaunchOk(env, s, l, launch)
    ensures LaunchOk(env, s, l, launch.(phase := AfterRead(s, launch, pick, claims)))
  {
  }

  // ---- a launch that consumes its state ----

  // The tables after a live state was marked as used by launch `l`.
  function Used(s: State, l: nat, state: string, now: int): State
    requires state in s.logins
  {
    s.(logins := s.logins[state := s.logins[state].(usedAt := Some(now))], consumedBy := s.consumedBy[state := l])
  }

  // A state that is live was consumed by nobody, so marking it as used overwrites nothing.
  lemma UseIsFirst(env: Env, s: State, l: nat, state: string, now: int)
    requires StatesOk(s) && StartsOk(env, s) && Live(s.logins, state, now)
    ensures state !in s.consumedBy && StatesOk(Used(s, l, state, now)) && Grows(s, Used(s, l, state, now))
    ensures forall i | 0 <= i < |s.starts| :: s.starts[i].state != state
  {
    forall i | 0 <= i < |s.starts| ensures s.starts[i].state != state {
      assert StartOk(env, s, s.starts[i]);
    }
    EvolvesReflexive(s.exam);
  }

  lemma ConsumptionKeepsInv(env: Env, s: State, l: nat)
    requires Inv(env, s) && l in s.launches && s.launches[l].phase.Mapped?
    requires s.launches[l].phase.platformID in s.platforms
    ensures Inv(env, Consume(env, s, l))
  {
    var launch, next := s.launches[l], Consume(env, s, l).launches[l];
    assert LaunchOk(env, s, l, launch);
    if next.phase.Refused? {
      LaunchReads(env, s, l, next);
    } else {
      UseIsFirst(env, s, l, launch.state, launch.now);
      var used := Used(s, l, launch.state, launch.now);
      QuietStep(env, s, used);
      ConsumerIsOk(env, s, used, l, launch);
      LaunchReads(env, used, l, next);
    }
  }

  lemma ConsumerIsOk(env: Env, s: State, s': State, l: nat, launch: Launch)
    requires launch.phase.Mapped? && LaunchOk(env, s, l, launch) && Grows(s, s')
    requires launch.state in s'.consumedBy && s'.consumedBy[launch.state] == l
    requires launch.phase.platformID in s.platforms
        && LineItemAccepted(env, s.platforms[launch.phase.platformID], launch.phase.claims)
    requires forall i | 0 <= i < |s'.starts| :: s'.starts[i].state != launch.state
    ensures var p := launch.phase;
            LaunchOk(env, s', l, launch.(phase := Consumed(p.login, p.platformID, p.claims, p.deliveryID)))
  {
    LaunchStable(env, s, s', l, launch);
  }

  // ---- a launch that starts a session ----

  // The session that StartSession returns to a launch belongs to the launch's user and delivery.
  lemma StartedSessionIsOwn(cfg: Config, env: Env, e: Exam, ev: Event, e': Exam, issuer: string, subject: string)
    requires EnvOk(env) && Step(cfg, e, ev, e') && ev.call.StartCall? && ev.call.userID == UserID(env, issuer, subject)
    requires ev.outcome.Started?
    ensures ev.outcome.sessionID in e'.sessions
    ensures Of(e'.sessions[ev.outcome.sessionID], TrimSpace(ev.call.deliveryID), UserID(env, issuer, subject))
  {
    UserIDIsTrimmed(env, issuer, subject);
  }

  predicate CallsFor(env: Env, s: State, launch: Launch, call: Call) {
    && launch.phase.Consumed? && launch.phase.platformID in s.platforms
    && call == StartCall(
                 launch.phase.deliveryID,
                 UserID(env, s.platforms[launch.phase.platformID].issuer, launch.phase.claims.subject))
  }

  lemma SessionStartKeepsLaunches(cfg: Config, env: Env, s: State, l: nat, ev: Event, exam: Exam)
    requires EnvOk(env) && l in s.launches && CallsFor(env, s, s.launches[l], ev.call) && Step(cfg, s.exam, ev, exam)
    requires LaunchesOk(env, s) && Grows(s, StartCalled(s, l, ev.outcome, exam))
    ensures LaunchesOk(env, StartCalled(s, l, ev.outcome, exam))
  {
    var launch, s' := s.launches[l], StartCalled(s, l, ev.outcome, exam);
    assert LaunchOk(env, s, l, launch);
    forall k | k in s'.launches ensures LaunchOk(env, s', k, s'.launches[k]) {
      if k != l {
        assert LaunchOk(env, s, k, s.launches[k]);
        LaunchStable(env, s, s', k, s.launches[k]);
      } else if ev.outcome.Started? {
        StartedSessionIsOwn(cfg, env, s.exam, ev, exam, s.platforms[launch.phase.platformID].issuer,
            launch.phase.claims.subject);
      }
    }
  }

  lemma SessionStartKeepsStarts(env: Env, s: State, l: nat, outcome: Outcome, exam: Exam)
    requires l in s.launches && s.launches[l].phase.Consumed? && LaunchOk(env, s, l, s.launches[l])
    requires StartsOk(env, s) && Grows(s, StartCalled(s, l, outcome, exam))
    ensures StartsOk(env, StartCalled(s, l, outcome, exam))
  {
    var s' := StartCalled(s, l, outcome, exam);
    forall i | 0 <= i < |s'.starts| ensures StartOk(env, s', s'.starts[i]) {
      if i < |s.starts| {
        assert StartOk(env, s, s.starts[i]);
      }
    }
  }

  lemma SessionStartKeepsInv(cfg: Config, env: Env, s: State, l: nat, ev: Event, exam: Exam)
    requires EnvOk(env) && Inv(env, s) && Evolves(s.exam, exam)
    requires l in s.launches && CallsFor(env, s, s.launches[l], ev.call) && Step(cfg, s.exam, ev, exam)
    ensures Inv(env, StartCalled(s, l, ev.outcome, exam))
  {
    var s' := StartCalled(s, l, ev.outcome, exam);
    assert Grows(s, s');
    SessionStartKeepsLaunches(cfg, env, s, l, ev, exam);
    SessionStartKeepsStarts(env, s, l, ev.outcome, exam);
    LinksStable(env, s, s');
  }

  // ---- a launch that writes its link row ----

  lemma LinkKeepsInv(env: Env, s: State, l: nat)
    requires Inv(env, s) && l in s.launches && s.launches[l].phase.SessionStarted?
    requires s.launches[l].phase.platformID in s.platforms
    ensures Inv(env, SaveLink(s, l))
  {
    var launch, s' := s.launches[l], SaveLink(s, l);
    var x := launch.phase.sessionID;
    assert LaunchOk(env, s, l, launch);
    assert LinkOk(env, s, x, s'.links[x]);
    AddLink(env, s, x, s'.links[x]);
    LaunchReads(env, s.(links := s'.links), l, s'.launches[l]);
  }

  lemma AddLink(env: Env, s: State, x: string, link: Link)
    requires Inv(env, s) && LinkOk(env, s, x, link)
    ensures Inv(env, s.(links := s.links[x := link]))
  {
    var s' := s.(links := s.links[x := link]);
    Same(s, s');
    LaunchesStable(env, s, s');
    StartsStable(env, s, s');
    forall y | y in s'.links ensures LinkOk(env, s', y, s'.links[y]) {
      assert y != x ==> LinkOk(env, s, y, s.links[y]);
    }
  }

  // ---- the other steps ----

  lemma LoginKeepsInv(env: Env, s: State, state: string, login: LoginState)
    requires Inv(env, s) && state !in s.issued && login.usedAt.None?
    ensures Inv(env, s.(logins := s.logins[state := login], issued := s.issued[state := login]))
  {
    var s' := s.(logins := s.logins[state := login], issued := s.issued[state := login]);
    EvolvesReflexive(s.exam);
    QuietStep(env, s, s');
  }

  lemma PurgeKeepsInv(env: Env, s: State, cutoff: int)
    requires Inv(env, s)
    ensures Inv(env, Purged(s, cutoff))
  {
    Same(s, Purged(s, cutoff));
    QuietStep(env, s, Purged(s, cutoff));
  }

  lemma SessionCallKeepsInv(env: Env, s: State, exam: Exam)
    requires Inv(env, s) && Evolves(s.exam, exam)
    ensures Inv(env, s.(exam := exam))
  {
    QuietStep(env, s, s.(exam := exam));
  }

  lemma RegistrationKeepsInv(
      env: Env, s: State, platforms: map<string, Platform>, mappings: map<LinkKey, string>, clock: int)
    requires Inv(env, s) && (forall p | p in platforms :: NUL !in platforms[p].issuer)
    requires forall k | k in s.platforms :: k in platforms && platforms[k] == s.platforms[k]
    requires forall k | k in s.mappings :: k in mappings && mappings[k] == s.mappings[k]
    ensures Inv(env, s.(platforms := platforms, mappings := mappings, clock := clock))
  {
    EvolvesReflexive(s.exam);
    QuietStep(env, s, s.(platforms := platforms, mappings := mappings, clock := clock));
  }

  lemma RegistryActionKeepsInv(cfg: Config, env: Env, s: State, a: Action)
    requires Inv(env, s) && Enabled(cfg, env, s, a) && (a.Tick? || a.RegisterPlatform? || a.RegisterResourceLink?)
    ensures Inv(env, Apply(cfg, env, s, a))
  {
    var s' := Apply(cfg, env, s, a);
    RegistrationKeepsInv(env, s, s'.platforms, s'.mappings, s'.clock);
  }

  lemma LoginActionKeepsInv(cfg: Config, env: Env, s: State, a: Action)
    requires Inv(env, s) && Enabled(cfg, env, s, a) && a.Login?
    ensures Inv(env, Apply(cfg, env, s, a))
  {
    LoginKeepsInv(env, s, a.state, Apply(cfg, env, s, a).issued[a.state]);
  }

  lemma OutsideKeepsInv(cfg: Config, env: Env, s: State, a: Action)
    requires TablesOk(cfg, s.exam) && Inv(env, s) && Enabled(cfg, env, s, a) && !a.Begin? && !a.Fail? && !a.Advance?
    ensures Inv(env, Apply(cfg, env, s, a))
  {
    if a.Login? {
      LoginActionKeepsInv(cfg, env, s, a);
    } else if a.OtherCall? {
      StepEvolves(cfg, s.exam, a.ev, a.exam);
      SessionCallKeepsInv(env, s, a.exam);
    } else if a.Purge? {
      PurgeKeepsInv(env, s, a.cutoff);
    } else {
      RegistryActionKeepsInv(cfg, env, s, a);
    }
  }

  lemma AdvanceKeepsInv(cfg: Config, env: Env, s: State, a: Action)
    requires EnvOk(env) && TablesOk(cfg, s.exam) && Inv(env, s) && Enabled(cfg, env, s, a) && a.Advance?
    ensures Inv(env, Apply(cfg, env, s, a))
  {
    var l := a.l;
    var launch := s.launches[l];
    if launch.phase.Mapped? {
      ConsumptionKeepsInv(env, s, l);
    } else if launch.phase.Consumed? {
      StepEvolves(cfg, s.exam, a.ev, a.exam);
      SessionStartKeepsInv(cfg, env, s, l, a.ev, a.exam);
    } else if launch.phase.SessionStarted? {
      LinkKeepsInv(env, s, l);
    } else {
      assert LaunchOk(env, s, l, launch);
      ReadIsOk(env, s, l, launch, a.pick, a.claims);
      LaunchReads(env, s, l, launch.(phase := AfterRead(s, launch, a.pick, a.claims)));
    }
  }

  lemma ActionKeepsInv(cfg: Config, env: Env, s: State, a: Action)
    requires EnvOk(env) && TablesOk(cfg, s.exam) && Inv(env, s) && Enabled(cfg, env, s, a)
    ensures Inv(env, Apply(cfg, env, s, a))
  {
    if a.Advance? {
      AdvanceKeepsInv(cfg, env, s, a);
    } else if a.Begin? {
      LaunchReads(env, s, a.l, Launch(a.state, s.clock, Sampled));
    } else if a.Fail? {
      LaunchReads(env, s, a.l, s.launches[a.l].(phase := Refused));
    } else {
      OutsideKeepsInv(cfg, env, s, a);
    }
  }
}
