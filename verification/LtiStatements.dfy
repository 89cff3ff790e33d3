/**
 LTI launches and session transactions as one machine: a launch's StartSession call is a transaction
 that interleaves with all others, statement by statement, and the launch waits for it. Every run is,
 for the launches, a run of the machine in which session calls are atomic.
 */
module LtiStatements {
  import opened Wrappers
  import opened Text
  import opened Assessment
  import opened SessionSpec
  import Protocol = SessionProtocol
  import Refinement = SessionRefinement
  import Theorems = SessionTheorems
  import Lti = LtiLaunch
  import LtiTheorems
  import LtiSafety
  import SessionLaws

  datatype State = State(
    lti: Lti.State,
    session: Protocol.State,
    calls: map<nat, nat>)        // which launch opened a transaction

  datatype Action =
    | Launch(a: Lti.Action)      // a login, a purge, a registration, or a statement of a launch
    | StartSession(l: nat, t: nat, call: Call) // a launch opens its StartSession transaction
    | Sessions(b: Protocol.Action)

  // ---- steps ----

  // The launch opened a transaction.
  predicate Called(calls: map<nat, nat>, l: nat) {
    exists t :: t in calls && calls[t] == l
  }

  // The transactions that the launch opened have ended.
  predicate Returned(s: State, l: nat) {
    forall t | t in s.calls && s.calls[t] == l :: t in s.session.txns && s.session.txns[t].phase.Closed?
  }

  predicate ReturnedSession(s: State, l: nat) {
    Returned(s, l) && forall t | t in s.calls && s.calls[t] == l :: s.session.txns[t].phase.outcome.Started?
  }

  // A launch waits for its call: it goes on only with the session that was returned, and gives up only
  // when the transaction has ended. All other actions but session calls and time are free.
  predicate MayGoOn(s: State, a: Lti.Action) {
    match a
    case Tick(_) => false
    case OtherCall(_, _) => false
    case Advance(l, _, _, _, _) =>
      l in s.lti.launches && !s.lti.launches[l].phase.Consumed? && ReturnedSession(s, l)
    case Fail(l) => Returned(s, l)
    case _ => true
  }

  ghost predicate Enabled(cfg: Config, env: Lti.Env, s: State, a: Action) {
    match a
    case Launch(a) => MayGoOn(s, a) && Lti.Enabled(cfg, env, s.lti, a)
    case StartSession(l, t, call) =>
      && l in s.lti.launches && !Called(s.calls, l) && t !in s.session.txns
      && LtiTheorems.CallsFor(env, s.lti, s.lti.launches[l], call)
    case Sessions(b) => Protocol.Enabled(cfg, s.session, b)
  }

  // What a call that takes effect means to the launches: new tables, and its outcome to its launch.
  function Told(lti: Lti.State, calls: map<nat, nat>, t: nat, outcome: Outcome, exam: Exam): Lti.State {
    if t in calls && calls[t] in lti.launches && lti.launches[calls[t]].phase.Consumed? then
      Lti.StartCalled(lti, calls[t], outcome, exam)
    else lti.(exam := exam)
  }

  // The atomic call that a statement is, with the tables that it leaves.
  function EffectOf(cfg: Config, s: Protocol.State, t: nat, pick: string): Option<(Event, Exam)>
    requires Protocol.Enabled(cfg, s, Protocol.Advance(t, pick))
  {
    var next := Protocol.NextOf(cfg, s.exam, s.clock, s.txns[t], pick);
    match Refinement.Effect(s.clock, s.txns[t], next)
    case Some(ev) => Some((ev, Protocol.ExamAfter(s.exam, next)))
    case None => None
  }

  function Followed(cfg: Config, s: State, b: Protocol.Action): Lti.State
    requires Protocol.Enabled(cfg, s.session, b)
  {
    match b
    case Tick(ticks) => s.lti.(clock := s.lti.clock + ticks)
    case Advance(t, pick) =>
      (match EffectOf(cfg, s.session, t, pick)
       case Some((ev, exam)) => Told(s.lti, s.calls, t, ev.outcome, exam)
       case None => s.lti)
    case _ => s.lti
  }

  ghost function Apply(cfg: Config, env: Lti.Env, s: State, a: Action): State
    requires Enabled(cfg, env, s, a)
  {
    match a
    case Launch(a) => s.(lti := Lti.Apply(cfg, env, s.lti, a))
    case StartSession(l, t, call) =>
      s.(session := Protocol.Apply(cfg, s.session, Protocol.Open(t, call)), calls := s.calls[t := l])
    case Sessions(b) => State(Followed(cfg, s, b), Protocol.Apply(cfg, s.session, b), s.calls)
  }

  // ---- the invariant ----

  // The transaction returns this session unless the database fails it.
  predicate Gives(txn: Protocol.Txn, sessionID: string) {
    var decided := Refinement.Decided(txn);
    decided.Some? && decided.value.Started? && decided.value.sessionID == sessionID
  }

  // How far a launch is, and how far its transaction.
  predicate InStep(env: Lti.Env, lti: Lti.State, launch: Lti.Launch, txn: Protocol.Txn) {
    match launch.phase
    case Consumed(_, _, _, _) =>
      LtiTheorems.CallsFor(env, lti, launch, txn.call) && Refinement.Decided(txn).None?
    case SessionStarted(_, _, _, _, x) => Gives(txn, x) || txn.phase == Protocol.Closed(Failed(DatabaseFailure), false)
    case Launched(x) => txn.phase.Closed? && Gives(txn, x)
    case Refused => txn.phase.Closed?
    case _ => false
  }

  // The launch is the one that consumed its state, and sampled the clock before the state expired.
  ghost predicate Consumer(lti: Lti.State, l: nat) {
    && l in lti.launches
    && var launch := lti.launches[l];
       && launch.state in lti.issued && launch.now < lti.issued[launch.state].expiresAt
       && launch.state in lti.consumedBy && lti.consumedBy[launch.state] == l
  }

  ghost predicate CallOk(env: Lti.Env, lti: Lti.State, l: nat, txn: Protocol.Txn) {
    Consumer(lti, l) && txn.call.StartCall? && InStep(env, lti, lti.launches[l], txn)
  }

  ghost predicate CallsOk(env: Lti.Env, s: State) {
    && (forall t | t in s.calls :: t in s.session.txns && CallOk(env, s.lti, s.calls[t], s.session.txns[t]))
    && (forall t, o | t in s.calls && o in s.calls && s.calls[t] == s.calls[o] :: t == o)
  }

  predicate SessionsAreCalled(lti: Lti.State, calls: map<nat, nat>) {
    forall l | l in lti.launches && LtiTheorems.HasSession(lti.launches[l]) :: Called(calls, l)
  }

  ghost predicate Inv(cfg: Config, env: Lti.Env, s: State) {
    && Protocol.Inv(cfg, s.session) && Lti.Inv(env, s.lti)
    && s.lti.exam == s.session.exam && s.lti.clock == s.session.clock
    && CallsOk(env, s) && SessionsAreCalled(s.lti, s.calls)
  }

  ghost predicate Init(cfg: Config, s: State) {
    && Protocol.Init(cfg, s.session) && Lti.Init(cfg, s.lti)
    && s.lti.exam == s.session.exam && s.lti.clock == s.session.clock && s.calls == map[]
  }

  // ---- every step is at most one step of the launches ----

  // The atomic call of a transaction is its launch's, or a call that no launch makes.
  function CallAction(calls: map<nat, nat>, t: nat, ev: Event, exam: Exam): Lti.Action {
    if t in calls then Lti.Advance(calls[t], "", None, ev, exam) else Lti.OtherCall(ev, exam)
  }

  function LaunchAction(cfg: Config, s: State, a: Action): Option<Lti.Action>
    requires a.Sessions? ==> Protocol.Enabled(cfg, s.session, a.b)
  {
    match a
    case Launch(a) => Some(a)
    case StartSession(_, _, _) => None
    case Sessions(Tick(ticks)) => Some(Lti.Tick(ticks))
    case Sessions(Advance(t, pick)) =>
      (match EffectOf(cfg, s.session, t, pick)
       case Some((ev, exam)) => Some(CallAction(s.calls, t, ev, exam))
       case None => None)
    case Sessions(_) => None
  }

  // Doing the step's action, if it has one, leads to the step's state.
  ghost predicate Follows(cfg: Config, env: Lti.Env, lti: Lti.State, a: Option<Lti.Action>, lti': Lti.State) {
    match a
    case Some(a) => Lti.Enabled(cfg, env, lti, a) && Lti.Apply(cfg, env, lti, a) == lti'
    case None => lti == lti'
  }

  lemma EffectIsStep(cfg: Config, s: Protocol.State, t: nat, pick: string)
    requires Protocol.Inv(cfg, s) && Protocol.Enabled(cfg, s, Protocol.Advance(t, pick))
    ensures var s' := Protocol.Apply(cfg, s, Protocol.Advance(t, pick));
            match EffectOf(cfg, s, t, pick)
            case Some((ev, exam)) =>
              && Step(cfg, s.exam, ev, exam) && s'.exam == exam && ev.call == s.txns[t].call
              && Refinement.Decided(s.txns[t]).None? && Refinement.Decided(s'.txns[t]) == Some(ev.outcome)
            case None => s'.exam == s.exam
  {
    Refinement.StatementRefines(cfg, s, t, pick);
  }

  lemma CallFollows(
      cfg: Config, env: Lti.Env, lti: Lti.State, calls: map<nat, nat>, t: nat, txn: Protocol.Txn, ev: Event, exam: Exam)
    requires t in calls ==> CallOk(env, lti, calls[t], txn)
    requires Refinement.Decided(txn).None? && Protocol.Runs(txn) && ev.call == txn.call && Step(cfg, lti.exam, ev, exam)
    ensures Follows(cfg, env, lti, Some(CallAction(calls, t, ev, exam)), Told(lti, calls, t, ev.outcome, exam))
  {
  }

  lemma StatementFollows(cfg: Config, env: Lti.Env, s: State, t: nat, pick: string)
    requires Protocol.Inv(cfg, s.session) && s.lti.exam == s.session.exam
    requires Protocol.Enabled(cfg, s.session, Protocol.Advance(t, pick))
    requires t in s.calls ==> CallOk(env, s.lti, s.calls[t], s.session.txns[t])
    ensures var b := Protocol.Advance(t, pick);
            Follows(cfg, env, s.lti, LaunchAction(cfg, s, Sessions(b)), Followed(cfg, s, b))
  {
    EffectIsStep(cfg, s.session, t, pick);
    match EffectOf(cfg, s.session, t, pick)
    case Some((ev, exam)) => CallFollows(cfg, env, s.lti, s.calls, t, s.session.txns[t], ev, exam);
    case None =>
  }

  /** Every step is one step of the machine with atomic session calls, or leaves its state alone. */
  lemma ActionFollows(cfg: Config, env: Lti.Env, s: State, a: Action)
    requires Inv(cfg, env, s) && Enabled(cfg, env, s, a)
    ensures Follows(cfg, env, s.lti, LaunchAction(cfg, s, a), Apply(cfg, env, s, a).lti)
  {
    if a.Sessions? && a.b.Advance? {
      StatementFollows(cfg, env, s, a.b.t, a.b.pick);
    }
  }

  // ---- calls stay in step with their launches ----

  ghost predicate Keeps(lti: Lti.State, lti': Lti.State) {
    && (forall k | k in lti.platforms :: k in lti'.platforms && lti'.platforms[k] == lti.platforms[k])
    && (forall k | k in lti.issued :: k in lti'.issued && lti'.issued[k] == lti.issued[k])
    && (forall k | k in lti.consumedBy :: k in lti'.consumedBy && lti'.consumedBy[k] == lti.consumedBy[k])
  }

  lemma CallKept(env: Lti.Env, lti: Lti.State, lti': Lti.State, l: nat, txn: Protocol.Txn)
    requires CallOk(env, lti, l, txn) && Keeps(lti, lti')
    requires l in lti'.launches && lti'.launches[l] == lti.launches[l]
    ensures CallOk(env, lti', l, txn)
  {
  }

  // The actions that move a launch that is there.
  predicate Moves(a: Lti.Action, l: nat) {
    (a.Advance? || a.Fail?) && a.l == l
  }

  lemma OthersStay(cfg: Config, env: Lti.Env, lti: Lti.State, a: Lti.Action, l: nat)
    requires Lti.Enabled(cfg, env, lti, a) && l in lti.launches && !Moves(a, l)
    requires a.Advance? ==> !lti.launches[a.l].phase.Consumed?
    ensures var lti' := Lti.Apply(cfg, env, lti, a); l in lti'.launches && lti'.launches[l] == lti.launches[l]
  {
    if a.Advance? {
      LtiTheorems.AdvanceMovesOne(cfg, env, lti, a);
    } else if !a.Fail? && !a.Begin? {
      LtiTheorems.OutsideMovesNone(cfg, env, lti, a);
    }
  }

  lemma OwnMove(cfg: Config, env: Lti.Env, lti: Lti.State, a: Lti.Action, l: nat, txn: Protocol.Txn)
    requires Lti.Enabled(cfg, env, lti, a) && Moves(a, l) && CallOk(env, lti, l, txn)
    requires txn.phase.Closed? && (a.Advance? ==> txn.phase.outcome.Started? && !lti.launches[l].phase.Consumed?)
    ensures CallOk(env, Lti.Apply(cfg, env, lti, a), l, txn)
  {
  }

  lemma LaunchKeepsCall(cfg: Config, env: Lti.Env, s: State, a: Lti.Action, t: nat)
    requires MayGoOn(s, a) && Lti.Enabled(cfg, env, s.lti, a) && Keeps(s.lti, Lti.Apply(cfg, env, s.lti, a))
    requires t in s.calls && t in s.session.txns && CallOk(env, s.lti, s.calls[t], s.session.txns[t])
    ensures CallOk(env, Lti.Apply(cfg, env, s.lti, a), s.calls[t], s.session.txns[t])
  {
    var l, txn := s.calls[t], s.session.txns[t];
    if Moves(a, l) {
      OwnMove(cfg, env, s.lti, a, l, txn);
    } else {
      OthersStay(cfg, env, s.lti, a, l);
      CallKept(env, s.lti, Lti.Apply(cfg, env, s.lti, a), l, txn);
    }
  }

  lemma LaunchKeepsTables(cfg: Config, env: Lti.Env, s: State, a: Lti.Action)
    requires MayGoOn(s, a) && Lti.Enabled(cfg, env, s.lti, a)
    ensures var lti' := Lti.Apply(cfg, env, s.lti, a); lti'.exam == s.lti.exam && lti'.clock == s.lti.clock
  {
    if a.Advance? {
      LtiTheorems.AdvanceMovesOne(cfg, env, s.lti, a);
    }
  }

  // No statement of a launch gets it a session.
  lemma HadSession(cfg: Config, env: Lti.Env, s: State, a: Lti.Action, l: nat)
    requires MayGoOn(s, a) && Lti.Enabled(cfg, env, s.lti, a)
    requires var lti' := Lti.Apply(cfg, env, s.lti, a); l in lti'.launches && LtiTheorems.HasSession(lti'.launches[l])
    ensures l in s.lti.launches && LtiTheorems.HasSession(s.lti.launches[l])
  {
    if a.Advance? {
      LtiTheorems.AdvanceMovesOne(cfg, env, s.lti, a);
    } else if !a.Fail? && !a.Begin? {
      LtiTheorems.OutsideMovesNone(cfg, env, s.lti, a);
    }
  }

  lemma LaunchKeepsCalled(cfg: Config, env: Lti.Env, s: State, a: Lti.Action)
    requires MayGoOn(s, a) && Lti.Enabled(cfg, env, s.lti, a) && SessionsAreCalled(s.lti, s.calls)
    ensures SessionsAreCalled(Lti.Apply(cfg, env, s.lti, a), s.calls)
  {
    var lti' := Lti.Apply(cfg, env, s.lti, a);
    forall l | l in lti'.launches && LtiTheorems.HasSession(lti'.launches[l]) ensures Called(s.calls, l) {
      HadSession(cfg, env, s, a, l);
    }
  }

  lemma LaunchKeepsInv(cfg: Config, env: Lti.Env, s: State, a: Lti.Action)
    requires Lti.EnvOk(env) && Inv(cfg, env, s) && Enabled(cfg, env, s, Launch(a))
    ensures Inv(cfg, env, Apply(cfg, env, s, Launch(a)))
  {
    LtiTheorems.ActionKeepsInv(cfg, env, s.lti, a);
    LtiSafety.ActionExtends(cfg, env, s.lti, a);
    LaunchKeepsTables(cfg, env, s, a);
    LaunchKeepsCalled(cfg, env, s, a);
    forall t | t in s.calls
      ensures CallOk(env, Lti.Apply(cfg, env, s.lti, a), s.calls[t], s.session.txns[t])
    {
      LaunchKeepsCall(cfg, env, s, a, t);
    }
  }

  lemma OpeningKeepsInv(cfg: Config, env: Lti.Env, s: State, l: nat, t: nat, call: Call)
    requires Inv(cfg, env, s) && Enabled(cfg, env, s, StartSession(l, t, call))
    ensures Inv(cfg, env, Apply(cfg, env, s, StartSession(l, t, call)))
  {
    Theorems.ActionKeepsInv(cfg, s.session, Protocol.Open(t, call));
    OpenedIsOk(env, s.lti, l, call, s.session.clock);
    OpeningKeepsCalls(env, s, Apply(cfg, env, s, StartSession(l, t, call)), l, t);
    CalledStays(s.calls, s.lti, t, l);
  }

  lemma CalledStays(calls: map<nat, nat>, lti: Lti.State, t: nat, l: nat)
    requires SessionsAreCalled(lti, calls) && t !in calls
    ensures SessionsAreCalled(lti, calls[t := l])
  {
    forall k | k in lti.launches && LtiTheorems.HasSession(lti.launches[k]) ensures Called(calls[t := l], k) {
      var o :| o in calls && calls[o] == k;
      assert o in calls[t := l] && calls[t := l][o] == k;
    }
  }

  lemma OpeningKeepsCalls(env: Lti.Env, s: State, s': State, l: nat, t: nat)
    requires CallsOk(env, s) && !Called(s.calls, l) && t !in s.session.txns
    requires s'.lti == s.lti && s'.calls == s.calls[t := l] && t in s'.session.txns
    requires s'.session.txns == s.session.txns[t := s'.session.txns[t]] && CallOk(env, s.lti, l, s'.session.txns[t])
    ensures CallsOk(env, s')
  {
  }

  lemma OpenedIsOk(env: Lti.Env, lti: Lti.State, l: nat, call: Call, clock: int)
    requires Lti.LaunchesOk(env, lti) && l in lti.launches && LtiTheorems.CallsFor(env, lti, lti.launches[l], call)
    ensures CallOk(env, lti, l, Protocol.Txn(call, Protocol.Waiting, clock))
  {
    assert Lti.LaunchOk(env, lti, l, lti.launches[l]);
  }

  // ---- statements of transactions ----

  predicate Touches(b: Protocol.Action, t: nat) {
    !b.Tick? && b.t == t
  }

  lemma ToldMovesOwn(lti: Lti.State, calls: map<nat, nat>, t: nat, outcome: Outcome, exam: Exam, l: nat)
    requires l in lti.launches && (t in calls ==> calls[t] != l)
    ensures var lti' := Told(lti, calls, t, outcome, exam);
            l in lti'.launches && lti'.launches[l] == lti.launches[l]
  {
  }

  lemma OtherLaunchStays(cfg: Config, s: State, b: Protocol.Action, l: nat)
    requires Protocol.Enabled(cfg, s.session, b) && l in s.lti.launches
    requires b.Advance? && b.t in s.calls ==> s.calls[b.t] != l
    ensures l in Followed(cfg, s, b).launches && Followed(cfg, s, b).launches[l] == s.lti.launches[l]
  {
    if b.Advance? {
      match EffectOf(cfg, s.session, b.t, b.pick) {
        case Some((ev, exam)) => ToldMovesOwn(s.lti, s.calls, b.t, ev.outcome, exam, l);
        case None =>
      }
    }
  }

  lemma OtherTxnStays(cfg: Config, s: Protocol.State, b: Protocol.Action, t: nat)
    requires Protocol.Enabled(cfg, s, b) && t in s.txns && !Touches(b, t)
    ensures t in Protocol.Apply(cfg, s, b).txns && Protocol.Apply(cfg, s, b).txns[t] == s.txns[t]
  {
  }

  lemma OthersKeepCall(cfg: Config, env: Lti.Env, s: State, b: Protocol.Action, t: nat)
    requires CallsOk(env, s) && Protocol.Enabled(cfg, s.session, b) && t in s.calls && !Touches(b, t)
    requires Keeps(s.lti, Followed(cfg, s, b))
    ensures t in Protocol.Apply(cfg, s.session, b).txns
    ensures CallOk(env, Followed(cfg, s, b), s.calls[t], Protocol.Apply(cfg, s.session, b).txns[t])
  {
    OtherLaunchStays(cfg, s, b, s.calls[t]);
    OtherTxnStays(cfg, s.session, b, t);
    CallKept(env, s.lti, Followed(cfg, s, b), s.calls[t], s.session.txns[t]);
  }

  // A statement of a StartSession transaction either decides its outcome or leaves it as it is.
  lemma OwnStatement(cfg: Config, s: Protocol.State, t: nat, pick: string)
    requires Protocol.Enabled(cfg, s, Protocol.Advance(t, pick)) && s.txns[t].call.StartCall?
    ensures var txn, txn' := s.txns[t], Protocol.Apply(cfg, s, Protocol.Advance(t, pick)).txns[t];
            && txn'.call == txn.call
            && match EffectOf(cfg, s, t, pick)
               case Some((ev, _)) =>
                 && Refinement.Decided(txn).None? && Refinement.Decided(txn') == Some(ev.outcome)
                 && (ev.outcome.Started? || txn'.phase.Closed?)
               case None => Refinement.Decided(txn') == Refinement.Decided(txn)
  {
  }

  lemma DecidedCallIsOk(
      env: Lti.Env, lti: Lti.State, l: nat, txn: Protocol.Txn, txn': Protocol.Txn, outcome: Outcome, exam: Exam)
    requires CallOk(env, lti, l, txn) && Protocol.Runs(txn) && Refinement.Decided(txn).None?
    requires txn'.call == txn.call && Refinement.Decided(txn') == Some(outcome)
    requires outcome.Started? || txn'.phase.Closed?
    ensures lti.launches[l].phase.Consumed? && CallOk(env, Lti.StartCalled(lti, l, outcome, exam), l, txn')
  {
  }

  lemma UndecidedCallIsOk(env: Lti.Env, lti: Lti.State, l: nat, txn: Protocol.Txn, txn': Protocol.Txn)
    requires CallOk(env, lti, l, txn) && Protocol.Runs(txn) && txn'.call == txn.call
    requires txn'.phase == Protocol.Closed(Failed(DatabaseFailure), false)
             || Refinement.Decided(txn') == Refinement.Decided(txn)
    ensures CallOk(env, lti, l, txn')
  {
  }

  lemma OwnKeepsCall(cfg: Config, env: Lti.Env, s: State, b: Protocol.Action)
    requires CallsOk(env, s) && Protocol.Enabled(cfg, s.session, b) && !b.Tick? && b.t in s.calls
    ensures b.t in Protocol.Apply(cfg, s.session, b).txns
    ensures CallOk(env, Followed(cfg, s, b), s.calls[b.t], Protocol.Apply(cfg, s.session, b).txns[b.t])
  {
    var l, txn, txn' := s.calls[b.t], s.session.txns[b.t], Protocol.Apply(cfg, s.session, b).txns[b.t];
    if b.Abort? {
      UndecidedCallIsOk(env, s.lti, l, txn, txn');
    } else {
      OwnStatement(cfg, s.session, b.t, b.pick);
      match EffectOf(cfg, s.session, b.t, b.pick) {
        case Some((ev, exam)) => DecidedCallIsOk(env, s.lti, l, txn, txn', ev.outcome, exam);
        case None => UndecidedCallIsOk(env, s.lti, l, txn, txn');
      }
    }
  }

  lemma SessionsKeepCalls(cfg: Config, env: Lti.Env, s: State, b: Protocol.Action)
    requires CallsOk(env, s) && Protocol.Enabled(cfg, s.session, b) && Keeps(s.lti, Followed(cfg, s, b))
    ensures CallsOk(env, Apply(cfg, env, s, Sessions(b)))
  {
    forall t | t in s.calls
      ensures t in Protocol.Apply(cfg, s.session, b).txns
          && CallOk(env, Followed(cfg, s, b), s.calls[t], Protocol.Apply(cfg, s.session, b).txns[t])
    {
      if Touches(b, t) {
        OwnKeepsCall(cfg, env, s, b);
      } else {
        OthersKeepCall(cfg, env, s, b, t);
      }
    }
  }

  lemma ToldTables(lti: Lti.State, calls: map<nat, nat>, t: nat, outcome: Outcome, exam: Exam)
    ensures Told(lti, calls, t, outcome, exam).exam == exam && Told(lti, calls, t, outcome, exam).clock == lti.clock
  {
  }

  lemma StatementTables(cfg: Config, s: State, t: nat, pick: string)
    requires Protocol.Inv(cfg, s.session) && Protocol.Enabled(cfg, s.session, Protocol.Advance(t, pick))
    requires s.lti.exam == s.session.exam
    ensures var b := Protocol.Advance(t, pick);
            && Followed(cfg, s, b).exam == Protocol.Apply(cfg, s.session, b).exam
            && Followed(cfg, s, b).clock == s.lti.clock
  {
    EffectIsStep(cfg, s.session, t, pick);
    match EffectOf(cfg, s.session, t, pick)
    case Some((ev, exam)) => ToldTables(s.lti, s.calls, t, ev.outcome, exam);
    case None =>
  }

  lemma ToldIsCalled(lti: Lti.State, calls: map<nat, nat>, t: nat, outcome: Outcome, exam: Exam)
    requires SessionsAreCalled(lti, calls)
    ensures SessionsAreCalled(Told(lti, calls, t, outcome, exam), calls)
  {
    var lti' := Told(lti, calls, t, outcome, exam);
    forall l | l in lti'.launches && LtiTheorems.HasSession(lti'.launches[l]) ensures Called(calls, l) {
      if lti'.launches != lti.launches {
        assert t in calls && lti'.launches == lti.launches[calls[t] := lti'.launches[calls[t]]];
      }
    }
  }

  lemma SessionsKeepCalled(cfg: Config, s: State, b: Protocol.Action)
    requires Protocol.Enabled(cfg, s.session, b) && SessionsAreCalled(s.lti, s.calls)
    ensures SessionsAreCalled(Followed(cfg, s, b), s.calls)
  {
    if b.Advance? {
      match EffectOf(cfg, s.session, b.t, b.pick) {
        case Some((ev, exam)) => ToldIsCalled(s.lti, s.calls, b.t, ev.outcome, exam);
        case None =>
      }
    }
  }

  // The launches see the tables and the time that the transactions see.
  lemma FollowedTables(cfg: Config, s: State, b: Protocol.Action)
    requires Protocol.Inv(cfg, s.session) && Protocol.Enabled(cfg, s.session, b)
    requires s.lti.exam == s.session.exam && s.lti.clock == s.session.clock
    ensures Followed(cfg, s, b).exam == Protocol.Apply(cfg, s.session, b).exam
    ensures Followed(cfg, s, b).clock == Protocol.Apply(cfg, s.session, b).clock
  {
    match b
    case Advance(t, pick) => StatementTables(cfg, s, t, pick);
    case _ => OtherTables(cfg, s, b);
  }

  lemma OtherTables(cfg: Config, s: State, b: Protocol.Action)
    requires Protocol.Enabled(cfg, s.session, b) && !b.Advance?
    requires s.lti.exam == s.session.exam && s.lti.clock == s.session.clock
    ensures Followed(cfg, s, b).exam == Protocol.Apply(cfg, s.session, b).exam
    ensures Followed(cfg, s, b).clock == Protocol.Apply(cfg, s.session, b).clock
  {
  }

  lemma FollowingKeepsGood(cfg: Config, env: Lti.Env, lti: Lti.State, a: Option<Lti.Action>, lti': Lti.State)
    requires Lti.EnvOk(env) && LtiSafety.Good(cfg, env, lti) && Follows(cfg, env, lti, a, lti')
    ensures LtiSafety.Good(cfg, env, lti') && LtiSafety.Extends(lti, lti')
  {
    match a
    case Some(a) =>
      LtiTheorems.ActionKeepsInv(cfg, env, lti, a);
      LtiSafety.ActionKeepsTables(cfg, env, lti, a);
      LtiSafety.ActionExtends(cfg, env, lti, a);
    case None =>
      LtiTheorems.Same(lti, lti');
  }

  lemma SessionsKeepInv(cfg: Config, env: Lti.Env, s: State, b: Protocol.Action)
    requires Lti.EnvOk(env) && Inv(cfg, env, s) && Protocol.Enabled(cfg, s.session, b)
    ensures Inv(cfg, env, Apply(cfg, env, s, Sessions(b)))
  {
    Theorems.ActionKeepsInv(cfg, s.session, b);
    ActionFollows(cfg, env, s, Sessions(b));
    FollowingKeepsGood(cfg, env, s.lti, LaunchAction(cfg, s, Sessions(b)), Followed(cfg, s, b));
    FollowedTables(cfg, s, b);
    SessionsKeepCalls(cfg, env, s, b);
    SessionsKeepCalled(cfg, s, b);
  }

  /** Every step keeps launches and transactions in step, and their tables and clock the same. */
  lemma ActionKeepsInv(cfg: Config, env: Lti.Env, s: State, a: Action)
    requires Lti.EnvOk(env) && Inv(cfg, env, s) && Enabled(cfg, env, s, a)
    ensures Inv(cfg, env, Apply(cfg, env, s, a))
  {
    match a
    case Launch(a) => LaunchKeepsInv(cfg, env, s, a);
    case StartSession(l, t, call) => OpeningKeepsInv(cfg, env, s, l, t, call);
    case Sessions(b) => SessionsKeepInv(cfg, env, s, b);
  }

  // ---- runs ----

  ghost predicate IsRun(cfg: Config, env: Lti.Env, s: State, run: seq<Action>)
    decreases |run|
  {
    run != [] ==> Enabled(cfg, env, s, run[0]) && IsRun(cfg, env, Apply(cfg, env, s, run[0]), run[1..])
  }

  ghost function After(cfg: Config, env: Lti.Env, s: State, run: seq<Action>): State
    requires IsRun(cfg, env, s, run)
    decreases |run|
  {
    if run == [] then s else After(cfg, env, Apply(cfg, env, s, run[0]), run[1..])
  }

  lemma ReachesFollowing(
      cfg: Config, env: Lti.Env, init: Lti.State, lti: Lti.State, a: Option<Lti.Action>, lti': Lti.State)
    requires LtiSafety.Reaches(cfg, env, init, lti) && Follows(cfg, env, lti, a, lti')
    ensures LtiSafety.Reaches(cfg, env, init, lti')
  {
    if a.Some? {
      LtiSafety.ReachesNext(cfg, env, init, lti, a.value);
    }
  }

  lemma {:induction false} RunFollows(cfg: Config, env: Lti.Env, init: Lti.State, s: State, run: seq<Action>)
    requires Lti.EnvOk(env) && Inv(cfg, env, s) && IsRun(cfg, env, s, run)
    requires LtiSafety.Reaches(cfg, env, init, s.lti)
    ensures Inv(cfg, env, After(cfg, env, s, run))
    ensures LtiSafety.Reaches(cfg, env, init, After(cfg, env, s, run).lti)
    decreases |run|
  {
    if run != [] {
      var s' := Apply(cfg, env, s, run[0]);
      ActionKeepsInv(cfg, env, s, run[0]);
      ActionFollows(cfg, env, s, run[0]);
      ReachesFollowing(cfg, env, init, s.lti, LaunchAction(cfg, s, run[0]), s'.lti);
      RunFollows(cfg, env, init, s', run[1..]);
    }
  }

  lemma InitIsOk(cfg: Config, env: Lti.Env, s: State)
    requires Init(cfg, s)
    ensures Inv(cfg, env, s)
  {
  }

  // ---- what the statements keep ----

  lemma RunKeepsInv(cfg: Config, env: Lti.Env, s: State, run: seq<Action>)
    requires Lti.EnvOk(env) && Inv(cfg, env, s) && IsRun(cfg, env, s, run)
    ensures Inv(cfg, env, After(cfg, env, s, run)) && LtiSafety.Reaches(cfg, env, s.lti, After(cfg, env, s, run).lti)
  {
    LtiSafety.ReachesSelf(cfg, env, s.lti);
    RunFollows(cfg, env, s.lti, s, run);
  }

  /**
   Whatever the interleaving of statements, the launches are where a run with atomic session calls
   leads them, over the committed tables.
   */
  lemma StatementsAreAtomicCalls(cfg: Config, env: Lti.Env, s: State, run: seq<Action>)
    returns (atomic: seq<Lti.Action>)
    requires Lti.EnvOk(env) && Inv(cfg, env, s) && IsRun(cfg, env, s, run)
    ensures LtiSafety.IsRun(cfg, env, s.lti, atomic)
    ensures LtiSafety.After(cfg, env, s.lti, atomic) == After(cfg, env, s, run).lti
    ensures After(cfg, env, s, run).lti.exam == After(cfg, env, s, run).session.exam
  {
    RunKeepsInv(cfg, env, s, run);
    var lti := After(cfg, env, s, run).lti;
    atomic :| LtiSafety.IsRun(cfg, env, s.lti, atomic) && LtiSafety.After(cfg, env, s.lti, atomic) == lti;
  }

  /**
   Launches open transactions for different states: the launch that opened one consumed its state, with
   a clock sample before the state expired. This holds of transactions that fail, too.
   */
  lemma OneTransactionPerLogin(cfg: Config, env: Lti.Env, s: State, run: seq<Action>, t: nat, o: nat)
    requires Lti.EnvOk(env) && Init(cfg, s) && IsRun(cfg, env, s, run)
    requires t in After(cfg, env, s, run).calls && o in After(cfg, env, s, run).calls
    ensures var u := After(cfg, env, s, run);
            && Consumer(u.lti, u.calls[t]) && Consumer(u.lti, u.calls[o])
            && (t != o ==> u.lti.launches[u.calls[t]].state != u.lti.launches[u.calls[o]].state)
  {
    InitIsOk(cfg, env, s);
    RunKeepsInv(cfg, env, s, run);
  }

  // The launch opened this transaction, which was committed and returned this session.
  predicate WasReturned(s: State, l: nat, t: nat, sessionID: string) {
    && t in s.calls && s.calls[t] == l && t in s.session.txns
    && s.session.txns[t].phase.Closed? && Gives(s.session.txns[t], sessionID)
  }

  /** A launch that is done gives out the session that its one transaction returned. */
  lemma LaunchedIsReturned(cfg: Config, env: Lti.Env, s: State, run: seq<Action>, l: nat) returns (t: nat)
    requires Lti.EnvOk(env) && Init(cfg, s) && IsRun(cfg, env, s, run)
    requires var lti := After(cfg, env, s, run).lti; l in lti.launches && lti.launches[l].phase.Launched?
    ensures var u := After(cfg, env, s, run);
            && WasReturned(u, l, t, u.lti.launches[l].phase.sessionID)
            && forall o | o in u.calls && u.calls[o] == l :: o == t
  {
    InitIsOk(cfg, env, s);
    RunKeepsInv(cfg, env, s, run);
    var u := After(cfg, env, s, run);
    t := CallOfLaunched(env, u, l);
  }

  lemma CallOfLaunched(env: Lti.Env, s: State, l: nat) returns (t: nat)
    requires CallsOk(env, s) && SessionsAreCalled(s.lti, s.calls)
    requires l in s.lti.launches && s.lti.launches[l].phase.Launched?
    ensures WasReturned(s, l, t, s.lti.launches[l].phase.sessionID)
    ensures forall o | o in s.calls && s.calls[o] == l :: o == t
  {
    assert Called(s.calls, l);
    t :| t in s.calls && s.calls[t] == l;
    assert CallOk(env, s.lti, s.calls[t], s.session.txns[t]);
  }

  /** Link rows name the owners of the committed sessions. */
  lemma LinkRowsNameTheirOwners(cfg: Config, env: Lti.Env, s: State, run: seq<Action>, x: string)
    requires Lti.EnvOk(env) && Init(cfg, s) && IsRun(cfg, env, s, run) && x in After(cfg, env, s, run).lti.links
    ensures var t := After(cfg, env, s, run); var e, link := t.session.exam, t.lti.links[x];
            && x in e.sessions
            && e.sessions[x].userID == Lti.UserID(env, link.issuer, link.subject)
            && link.key in t.lti.mappings
            && e.sessions[x].deliveryID == TrimSpace(t.lti.mappings[link.key])
  {
    InitIsOk(cfg, env, s);
    var atomic := StatementsAreAtomicCalls(cfg, env, s, run);
    LtiSafety.LinkRowsNameTheirOwners(cfg, env, s.lti, atomic, x);
  }

  // The grade that is sent for a session, from the link rows and the committed tables.
  function GradeFor(cfg: Config, s: State, x: string): Option<LtiSafety.Grade>
    requires x in s.session.exam.sessions
  {
    LtiSafety.GradeFor(cfg, s.lti.(exam := s.session.exam), x)
  }

  /** A grade sent for a committed, completed session names its subject and gives the sum of its rows. */
  lemma GradesBelongToTheirSubject(
      cfg: Config, env: Lti.Env, s: State, run: seq<Action>, x: string, issuer: string, subject: string,
      points: map<int, real>)
    requires Lti.EnvOk(env) && Init(cfg, s) && IsRun(cfg, env, s, run) && Lti.NUL !in issuer
    requires var e := After(cfg, env, s, run).session.exam;
             && x in e.sessions && e.sessions[x].status == Completed
             && e.sessions[x].userID == Lti.UserID(env, issuer, subject)
             && ArePoints(cfg, e.sessions[x].deliveryID, cfg.testItems, points)
             && forall i | i in points :: points[i] >= 0.0
    requires GradeFor(cfg, After(cfg, env, s, run), x).Some?
    ensures var t := After(cfg, env, s, run); var grade := GradeFor(cfg, t, x).value;
            && grade.userID == subject
            && grade.scoreGiven == Sum(Scores(Rows(t.session.exam, x)))
            && 0.0 <= grade.scoreGiven <= grade.scoreMaximum == Sum(points)
  {
    InitIsOk(cfg, env, s);
    var atomic := StatementsAreAtomicCalls(cfg, env, s, run);
    var lti := After(cfg, env, s, run).lti;
    assert lti.(exam := After(cfg, env, s, run).session.exam) == lti;
    LtiSafety.GradesBelongToTheirSubject(cfg, env, s.lti, atomic, x, issuer, subject, points);
  }

  /** A grade for right answers to all items of a test, each in it once, gives the maximum. */
  lemma AllRightIsFullGrade(cfg: Config, env: Lti.Env, s: State, run: seq<Action>, x: string, points: map<int, real>)
    requires Lti.EnvOk(env) && Init(cfg, s) && IsRun(cfg, env, s, run)
    requires var e := After(cfg, env, s, run).session.exam;
             && x in e.sessions && e.sessions[x].status == Completed
             && ArePoints(cfg, e.sessions[x].deliveryID, cfg.testItems, points)
             && SessionLaws.AllRight(cfg, points, Rows(e, x))
    requires GradeFor(cfg, After(cfg, env, s, run), x).Some?
    ensures var grade := GradeFor(cfg, After(cfg, env, s, run), x).value;
            grade.scoreGiven == grade.scoreMaximum == Sum(points)
  {
    InitIsOk(cfg, env, s);
    var atomic := StatementsAreAtomicCalls(cfg, env, s, run);
    var lti := After(cfg, env, s, run).lti;
    assert lti.(exam := After(cfg, env, s, run).session.exam) == lti;
    LtiSafety.AllRightIsFullGrade(cfg, env, s.lti, atomic, x, points);
  }

  /** Grades sent for a completed session at different times agree, whatever statements lie between. */
  lemma GradesAgree(cfg: Config, env: Lti.Env, s: State, run: seq<Action>, x: string)
    requires Lti.EnvOk(env) && Inv(cfg, env, s) && IsRun(cfg, env, s, run)
    requires x in s.session.exam.sessions && s.session.exam.sessions[x].status == Completed
    requires GradeFor(cfg, s, x).Some?
    ensures x in After(cfg, env, s, run).session.exam.sessions
    ensures GradeFor(cfg, After(cfg, env, s, run), x).Some? ==>
              GradeFor(cfg, After(cfg, env, s, run), x) == GradeFor(cfg, s, x)
  {
    var atomic := StatementsAreAtomicCalls(cfg, env, s, run);
    var t := After(cfg, env, s, run);
    assert s.lti.(exam := s.session.exam) == s.lti && t.lti.(exam := t.session.exam) == t.lti;
    LtiSafety.GradesAgree(cfg, env, s.lti, atomic, x);
  }
}
