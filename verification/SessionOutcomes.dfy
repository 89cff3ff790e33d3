/** What the answers and records of the session calls are over every interleaving of their statements. */
module SessionOutcomes {
  import opened Text
  import opened Assessment
  import opened SessionSpec
  import opened SessionLaws
  import opened SessionProtocol
  import opened SessionTheorems
  import opened SessionLinearization
  import opened SessionAnswers

  // ---- from a returned answer to its atomic call ----

  lemma {:induction false} ClockAdvances(cfg: Config, s: State, run: seq<Action>)
    requires Clocked(s) && IsRun(cfg, s, run)
    ensures s.clock <= After(cfg, s, run).clock
    decreases |run|
  {
    if run != [] {
      ActionKeepsClocked(cfg, s, run[0]);
      ClockAdvances(cfg, Apply(cfg, s, run[0]), run[1..]);
    }
  }

  // The call leads from tables of the run to others, before its last ones.
  ghost predicate StepWithin(cfg: Config, e: Exam, call: Atomic, e': Exam, last: State) {
    && Step(cfg, e, call.ev, e') && Evolves(e, e') && Evolves(e', last.exam)
    && call.openedAt <= call.ev.checkedAt <= call.ev.now <= call.at <= last.clock
  }

  lemma ActionKeepsBoth(cfg: Config, s: State, a: Action)
    requires Inv(cfg, s) && Clocked(s) && Enabled(cfg, s, a)
    ensures Inv(cfg, Apply(cfg, s, a)) && Clocked(Apply(cfg, s, a))
  {
    ActionKeepsInv(cfg, s, a);
    ActionKeepsClocked(cfg, s, a);
  }

  lemma FirstIsStep(cfg: Config, s: State, run: seq<Action>)
    requires Inv(cfg, s) && Clocked(s) && IsRun(cfg, s, run) && run != [] && StepTrace(cfg, s, run[0]) != []
    ensures |StepTrace(cfg, s, run[0])| == 1
    ensures StepWithin(
              cfg, s.exam, StepTrace(cfg, s, run[0])[0], Apply(cfg, s, run[0]).exam, After(cfg, s, run))
  {
    var s' := Apply(cfg, s, run[0]);
    ActionKeepsBoth(cfg, s, run[0]);
    ActionKeepsInv(cfg, s, run[0]);
    FirstAtomicCall(cfg, s, run[0]);
    RunKeepsInv(cfg, s', run[1..]);
    ClockAdvances(cfg, s', run[1..]);
  }

  // The run makes this atomic call, and ends in this state.
  ghost predicate Makes(cfg: Config, s: State, run: seq<Action>, i: nat, call: Atomic, last: State) {
    && Inv(cfg, s) && Clocked(s) && IsRun(cfg, s, run)
    && i < |Trace(cfg, s, run)| && Trace(cfg, s, run)[i] == call && After(cfg, s, run) == last
  }

  // The first action makes the call, or the rest of the run does.
  lemma MakesFirst(cfg: Config, s: State, run: seq<Action>, i: nat, call: Atomic, last: State)
    requires Makes(cfg, s, run, i, call, last)
    ensures run != [] && Enabled(cfg, s, run[0])
    ensures i < |StepTrace(cfg, s, run[0])| ==> StepWithin(cfg, s.exam, call, Apply(cfg, s, run[0]).exam, last)
  {
    if i < |StepTrace(cfg, s, run[0])| {
      FirstIsStep(cfg, s, run);
    }
  }

  lemma MakesLater(cfg: Config, s: State, run: seq<Action>, i: nat, call: Atomic, last: State)
    requires Makes(cfg, s, run, i, call, last) && run != [] && i >= |StepTrace(cfg, s, run[0])|
    ensures Makes(cfg, Apply(cfg, s, run[0]), run[1..], i - |StepTrace(cfg, s, run[0])|, call, last)
  {
    var s', rest := Apply(cfg, s, run[0]), run[1..];
    assert Trace(cfg, s, run) == StepTrace(cfg, s, run[0]) + Trace(cfg, s', rest);
    assert After(cfg, s, run) == After(cfg, s', rest);
    assert Inv(cfg, s') && Clocked(s') by {
      ActionKeepsBoth(cfg, s, run[0]);
    }
  }

  // Every atomic call of a run is a step from tables that the run passes through.
  lemma {:induction false} AtomicIsStep(cfg: Config, s: State, run: seq<Action>, i: nat, call: Atomic, last: State)
    returns (e: Exam, e': Exam)
    requires Makes(cfg, s, run, i, call, last)
    ensures StepWithin(cfg, e, call, e', last)
    decreases |run|
  {
    MakesFirst(cfg, s, run, i, call, last);
    e, e' := s.exam, Apply(cfg, s, run[0]).exam;
    if i >= |StepTrace(cfg, s, run[0])| {
      MakesLater(cfg, s, run, i, call, last);
      e, e' := AtomicIsStep(
        cfg, Apply(cfg, s, run[0]), run[1..], i - |StepTrace(cfg, s, run[0])|, call, last);
    }
  }

  lemma {:induction false} EffectPlace(trace: seq<Atomic>, t: nat) returns (i: nat)
    requires EffectsOf(trace, t) != []
    ensures i < |trace| && trace[i].t == t && trace[i].ev == EffectsOf(trace, t)[0]
  {
    if trace[0].t == t {
      i := 0;
    } else {
      i := EffectPlace(trace[1..], t);
      i := i + 1;
    }
  }

  lemma OpeningStays(cfg: Config, s: State, a: Action, t: nat)
    requires Enabled(cfg, s, a) && t in s.txns
    ensures t in Apply(cfg, s, a).txns && Apply(cfg, s, a).txns[t].openedAt == s.txns[t].openedAt
  {
  }

  lemma {:induction false} OpeningStaysOverRun(cfg: Config, s: State, run: seq<Action>, t: nat)
    requires IsRun(cfg, s, run) && t in s.txns
    ensures t in After(cfg, s, run).txns && After(cfg, s, run).txns[t].openedAt == s.txns[t].openedAt
    decreases |run|
  {
    if run != [] {
      OpeningStays(cfg, s, run[0], t);
      OpeningStaysOverRun(cfg, Apply(cfg, s, run[0]), run[1..], t);
    }
  }

  lemma {:induction false} AtomicOpening(cfg: Config, s: State, run: seq<Action>, i: nat)
    requires IsRun(cfg, s, run) && i < |Trace(cfg, s, run)|
    ensures var call := Trace(cfg, s, run)[i];
            call.t in After(cfg, s, run).txns && After(cfg, s, run).txns[call.t].openedAt == call.openedAt
    decreases |run|
  {
    var s', head := Apply(cfg, s, run[0]), StepTrace(cfg, s, run[0]);
    if i < |head| {
      OpeningStaysOverRun(cfg, s, run, head[0].t);
    } else {
      AtomicOpening(cfg, s', run[1..], i - |head|);
    }
  }

  // The transaction has ended with an answer that is not the database's.
  predicate Returned(s: State, t: nat) {
    t in s.txns && s.txns[t].phase.Closed? && s.txns[t].phase.outcome != Failed(DatabaseFailure)
  }

  // A returned answer is that of an atomic step, with times between the opening and now.
  lemma ReturnedIsStep(cfg: Config, s: State, run: seq<Action>, t: nat) returns (e: Exam, ev: Event, e': Exam)
    requires Init(cfg, s) && IsRun(cfg, s, run) && Returned(After(cfg, s, run), t)
    ensures Step(cfg, e, ev, e') && Evolves(e, e') && Evolves(e', After(cfg, s, run).exam)
    ensures var txn := After(cfg, s, run).txns[t];
            && ev.call == txn.call && ev.outcome == txn.phase.outcome
            && txn.openedAt <= ev.checkedAt <= ev.now <= After(cfg, s, run).clock
  {
    var trace, last := Trace(cfg, s, run), After(cfg, s, run);
    var i := ReturnedPlace(cfg, s, run, t);
    AtomicOpening(cfg, s, run, i);
    InitHoldsInv(cfg, s);
    assert Makes(cfg, s, run, i, trace[i], last);
    ev := trace[i].ev;
    e, e' := AtomicIsStep(cfg, s, run, i, trace[i], last);
  }

  lemma ReturnedPlace(cfg: Config, s: State, run: seq<Action>, t: nat) returns (i: nat)
    requires Init(cfg, s) && IsRun(cfg, s, run) && Returned(After(cfg, s, run), t)
    ensures i < |Trace(cfg, s, run)|
    ensures var call, txn := Trace(cfg, s, run)[i], After(cfg, s, run).txns[t];
            call.t == t && call.ev.call == txn.call && call.ev.outcome == txn.phase.outcome
  {
    ReturnedEffect(cfg, s, run, t);
    i := EffectPlace(Trace(cfg, s, run), t);
  }

  lemma ReturnedEffect(cfg: Config, s: State, run: seq<Action>, t: nat)
    requires s.txns == map[] && IsRun(cfg, s, run) && Returned(After(cfg, s, run), t)
    ensures var effects, txn := EffectsOf(Trace(cfg, s, run), t), After(cfg, s, run).txns[t];
            effects != [] && effects[0].call == txn.call && effects[0].outcome == txn.phase.outcome
  {
    OutcomesAreAtomicOutcomes(cfg, s, run, t);
    assert DecidedIn(s, t).None?;
  }

  // ---- admission ----

  /**
   A StartSession call that has returned found, at some time between its opening and its return: no such
   delivery exactly when the names say so, a closed one exactly when it did not take place then, and a
   forbidden one exactly when it took place and was not for the user.
   */
  lemma StartsAreAnsweredByTheDelivery(cfg: Config, s: State, run: seq<Action>, t: nat) returns (now: int)
    requires Init(cfg, s) && IsRun(cfg, s, run) && Returned(After(cfg, s, run), t)
    requires After(cfg, s, run).txns[t].call.StartCall?
    ensures After(cfg, s, run).txns[t].openedAt <= now <= After(cfg, s, run).clock
    ensures var txn := After(cfg, s, run).txns[t];
            var d, u, outcome := TrimSpace(txn.call.deliveryID), TrimSpace(txn.call.userID), txn.phase.outcome;
            && (outcome == Failed(DeliveryNotFound) <==> d == "" || u == "" || d !in cfg.deliveries)
            && (outcome != Failed(DeliveryNotFound) ==>
                  && (outcome == Failed(DeliveryClosed) <==> !TakesPlace(cfg.deliveries[d], now))
                  && (outcome == Failed(DeliveryForbidden) <==>
                        TakesPlace(cfg.deliveries[d], now) && !IsFor(cfg, d, u)))
  {
    var e, ev, e' := ReturnedIsStep(cfg, s, run, t);
    StartAnswers(cfg, e, ev, e');
    now := ev.now;
  }

  /**
   Who is admitted from the call to its return is not turned away: the answer is a session, or that all
   attempts are used up, or a failure of the database.
   */
  lemma AdmittedIsNotTurnedAway(cfg: Config, s: State, run: seq<Action>, t: nat)
    requires Init(cfg, s) && IsRun(cfg, s, run)
    requires t in After(cfg, s, run).txns && After(cfg, s, run).txns[t].phase.Closed?
    requires After(cfg, s, run).txns[t].call.StartCall?
    requires var txn := After(cfg, s, run).txns[t];
             var d, u := TrimSpace(txn.call.deliveryID), TrimSpace(txn.call.userID);
             && d != "" && u != "" && d in cfg.deliveries && IsFor(cfg, d, u)
             && TakesPlace(cfg.deliveries[d], txn.openedAt)
             && TakesPlace(cfg.deliveries[d], After(cfg, s, run).clock)
    ensures var outcome := After(cfg, s, run).txns[t].phase.outcome;
            outcome.Started? || outcome == Failed(MaxAttempts) || outcome == Failed(DatabaseFailure)
  {
    if Returned(After(cfg, s, run), t) {
      var e, ev, e' := ReturnedIsStep(cfg, s, run, t);
      StartAnswers(cfg, e, ev, e');
    }
  }

  // ---- what becomes of a session ----

  predicate WasStarted(e: Exam, x: string) {
    x in e.sessions && e.sessions[x].status != NotStarted
  }

  predicate WasCompleted(e: Exam, x: string) {
    x in e.sessions && e.sessions[x].status == Completed
  }

  // A session that started in between did so while its delivery took place, for a user it was for.
  ghost predicate StartedWhenOpen(cfg: Config, e: Exam, from: int, e': Exam, to: int, x: string) {
    WasStarted(e', x) && !WasStarted(e, x) ==>
      var row := e'.sessions[x];
      && row.startedAt.Some? && from <= row.startedAt.value <= to
      && row.deliveryID in cfg.deliveries && TakesPlace(cfg.deliveries[row.deliveryID], row.startedAt.value)
      && IsFor(cfg, row.deliveryID, row.userID)
  }

  // A session that was not there before began with no time, and only completion records time.
  ghost predicate TimeBefore(e: Exam, e': Exam, x: string) {
    && (x in e'.sessions && x !in e.sessions ==> WasStarted(e', x) && e'.sessions[x].startedAt.Some?)
    && (x in e'.sessions && !WasCompleted(e', x) ==>
          e'.sessions[x].timeSpent == if x in e.sessions then e.sessions[x].timeSpent else 0)
  }

  // A session that was completed in between records when, and the time since its start.
  ghost predicate TimedAtCompletion(e: Exam, from: int, e': Exam, to: int, x: string) {
    WasCompleted(e', x) && !WasCompleted(e, x) ==>
      var row := e'.sessions[x];
      && row.finishedAt.Some? && from <= row.finishedAt.value <= to
      && TimeIsRecorded(
           row.(timeSpent := if x in e.sessions then e.sessions[x].timeSpent else 0), row, row.finishedAt.value)
  }

  ghost predicate Recorded(cfg: Config, e: Exam, from: int, e': Exam, to: int, x: string) {
    StartedWhenOpen(cfg, e, from, e', to, x) && TimeBefore(e, e', x) && TimedAtCompletion(e, from, e', to, x)
  }

  lemma StartRecords(cfg: Config, e: Exam, ev: Event, e': Exam, x: string)
    requires ev.call.StartCall? && Step(cfg, e, ev, e')
    ensures Recorded(cfg, e, ev.now, e', ev.now, x)
  {
    StartAnswers(cfg, e, ev, e');
    if ev.outcome.Started? {
      StartGives(cfg, e, ev, e');
      GivenRecords(cfg, e, TrimSpace(ev.call.deliveryID), TrimSpace(ev.call.userID), ev, e', x);
    }
  }

  lemma GivenRecords(cfg: Config, e: Exam, d: string, u: string, ev: Event, e': Exam, x: string)
    requires ev.outcome.Started? && Given(e, d, u, ev.now, ev.outcome.sessionID, ev.outcome.session, e')
    requires d in cfg.deliveries && TakesPlace(cfg.deliveries[d], ev.now) && IsFor(cfg, d, u)
    ensures Recorded(cfg, e, ev.now, e', ev.now, x)
  {
  }

  lemma SaveRecords(cfg: Config, e: Exam, ev: Event, e': Exam, x: string)
    requires ev.call.SaveCall? && Step(cfg, e, ev, e')
    ensures Recorded(cfg, e, ev.now, e', ev.now, x)
  {
    SaveAnswers(cfg, e, ev, e');
  }

  lemma SubmitRecords(cfg: Config, e: Exam, ev: Event, e': Exam, x: string)
    requires ev.call.SubmitCall? && Step(cfg, e, ev, e')
    ensures Recorded(cfg, e, ev.now, e', ev.now, x)
  {
    SubmitAnswers(cfg, e, ev, e');
    var y := ev.call.sessionID;
    if ev.outcome.Submitted? && e.sessions[y].status == InProgress {
      CompletionRecords(cfg, e, y, ev.now, ev.outcome.submitted, ev.outcome.rows, e', x);
    }
  }

  lemma CompletionRecords(
      cfg: Config, e: Exam, y: string, now: int, row: Session, rows: map<string, Response>, e': Exam, x: string)
    requires y in e.sessions && e.sessions[y].status == InProgress && Completes(cfg, e, y, now, row, rows)
    requires e'.sessions == e.sessions[y := row]
    ensures Recorded(cfg, e, now, e', now, x)
  {
  }

  lemma StepRecords(cfg: Config, e: Exam, ev: Event, e': Exam, x: string)
    requires Step(cfg, e, ev, e')
    ensures Recorded(cfg, e, ev.now, e', ev.now, x)
  {
    match ev.call
    case StartCall(_, _) => StartRecords(cfg, e, ev, e', x);
    case SaveCall(_, _, _, _) => SaveRecords(cfg, e, ev, e', x);
    case SubmitCall(_, _) => SubmitRecords(cfg, e, ev, e', x);
  }

  lemma RecordedTransitive(cfg: Config, e: Exam, from: int, f: Exam, mid: int, g: Exam, to: int, x: string)
    requires mid <= to && Evolves(e, f) && Evolves(f, g)
    requires Recorded(cfg, e, from, f, mid, x) && Recorded(cfg, f, from, g, to, x)
    ensures Recorded(cfg, e, from, g, to, x)
  {
    if x in f.sessions {
      assert SessionEvolves(f, g, x);
    }
    if x in e.sessions {
      assert SessionEvolves(e, f, x);
    }
  }

  lemma NothingRecorded(cfg: Config, e: Exam, now: int, x: string)
    ensures Recorded(cfg, e, now, e, now, x)
  {
  }

  // What is recorded at a time is recorded between any times around it.
  lemma RecordedWithin(cfg: Config, e: Exam, now: int, e': Exam, from: int, to: int, x: string)
    requires from <= now <= to && Recorded(cfg, e, now, e', now, x)
    ensures Recorded(cfg, e, from, e', to, x)
  {
  }

  // No transaction was opened before this time, so none has looked at an earlier clock.
  predicate OpenedSince(s: State, from: int) {
    from <= s.clock && forall t | t in s.txns :: from <= s.txns[t].openedAt
  }

  lemma ActionOpensSince(cfg: Config, s: State, a: Action, from: int)
    requires Enabled(cfg, s, a) && OpenedSince(s, from) && s.clock <= Apply(cfg, s, a).clock
    ensures OpenedSince(Apply(cfg, s, a), from)
  {
    forall t | t in s.txns ensures from <= Apply(cfg, s, a).txns[t].openedAt {
      OpeningStays(cfg, s, a, t);
    }
  }

  // The time of an action's atomic call.
  lemma ActionTime(cfg: Config, s: State, a: Action, from: int)
    requires Inv(cfg, s) && Clocked(s) && Enabled(cfg, s, a) && OpenedSince(s, from)
    ensures var head, s' := StepTrace(cfg, s, a), Apply(cfg, s, a);
            if head == [] then s'.exam == s.exam
            else Step(cfg, s.exam, head[0].ev, s'.exam) && from <= head[0].ev.now <= s'.clock
    ensures from <= Apply(cfg, s, a).clock
  {
    FirstAtomicCall(cfg, s, a);
    ActionKeepsClocked(cfg, s, a);
  }

  lemma ActionRecords(cfg: Config, s: State, a: Action, from: int, x: string)
    requires Inv(cfg, s) && Clocked(s) && Enabled(cfg, s, a) && OpenedSince(s, from)
    ensures Recorded(cfg, s.exam, from, Apply(cfg, s, a).exam, Apply(cfg, s, a).clock, x)
  {
    var s', head := Apply(cfg, s, a), StepTrace(cfg, s, a);
    ActionTime(cfg, s, a, from);
    if head == [] {
      NothingRecorded(cfg, s.exam, from, x);
      RecordedWithin(cfg, s.exam, from, s.exam, from, s'.clock, x);
    } else {
      StepRecords(cfg, s.exam, head[0].ev, s'.exam, x);
      RecordedWithin(cfg, s.exam, head[0].ev.now, s'.exam, from, s'.clock, x);
    }
  }

  lemma {:induction false} RunRecords(cfg: Config, s: State, run: seq<Action>, from: int, x: string)
    requires Inv(cfg, s) && Clocked(s) && IsRun(cfg, s, run) && OpenedSince(s, from)
    ensures Recorded(cfg, s.exam, from, After(cfg, s, run).exam, After(cfg, s, run).clock, x)
    decreases |run|
  {
    if run == [] {
      NothingRecorded(cfg, s.exam, from, x);
      RecordedWithin(cfg, s.exam, from, s.exam, from, s.clock, x);
    } else {
      var s', rest := Apply(cfg, s, run[0]), run[1..];
      ActionRecords(cfg, s, run[0], from, x);
      assert Inv(cfg, s') && Clocked(s') && s.clock <= s'.clock && Evolves(s.exam, s'.exam) by {
        ActionKeepsInv(cfg, s, run[0]);
        ActionKeepsClocked(cfg, s, run[0]);
      }
      ActionOpensSince(cfg, s, run[0], from);
      RunRecords(cfg, s', rest, from, x);
      assert Evolves(s'.exam, After(cfg, s', rest).exam) by {
        RunKeepsInv(cfg, s', rest);
      }
      ClockAdvances(cfg, s', rest);
      RecordedTransitive(
        cfg, s.exam, from, s'.exam, s'.clock, After(cfg, s', rest).exam, After(cfg, s', rest).clock, x);
    }
  }

  /**
   After any interleaving: a session that was inserted or begun in the run started while its delivery took
   place and for a user whom the delivery is for. One that was completed in the run records when, and
   between its start and then the whole seconds, none when the clock shows no later time, or what it had
   when it never started; and no other session's time changes.
   */
  lemma SessionsAreRecorded(cfg: Config, s: State, run: seq<Action>, x: string)
    requires Init(cfg, s) && IsRun(cfg, s, run)
    ensures Recorded(cfg, s.exam, s.clock, After(cfg, s, run).exam, After(cfg, s, run).clock, x)
  {
    InitHoldsInv(cfg, s);
    RunRecords(cfg, s, run, s.clock, x);
  }

  // ---- the time limit ----

  /**
   A SaveResponse call that was not refused for its session's state checked the limit at some time between
   its opening and its return. It was refused as expired exactly when the test has a positive limit and that
   time was later than the limit, in seconds, after the session's start.
   */
  lemma SavesExpireByTheLimit(cfg: Config, s: State, run: seq<Action>, t: nat) returns (checkedAt: int)
    requires Init(cfg, s) && IsRun(cfg, s, run) && Returned(After(cfg, s, run), t)
    requires var txn := After(cfg, s, run).txns[t];
             && txn.call.SaveCall?
             && (txn.phase.outcome.Saved? || txn.phase.outcome == Failed(SessionExpired)
                 || txn.phase.outcome == Failed(ItemNotInDelivery))
    ensures After(cfg, s, run).txns[t].openedAt <= checkedAt <= After(cfg, s, run).clock
    ensures var u := After(cfg, s, run); var txn := u.txns[t]; var x := txn.call.sessionID;
            && x in u.exam.sessions && u.exam.sessions[x].userID == txn.call.userID
            && u.exam.sessions[x].startedAt.Some?
            && (txn.phase.outcome == Failed(SessionExpired) <==>
                  Late(cfg, u.exam.sessions[x].deliveryID, u.exam.sessions[x].startedAt.value, checkedAt))
            && (txn.phase.outcome.Saved? ==> InTest(cfg, u.exam.sessions[x].deliveryID, txn.call.itemID))
  {
    var e, ev, e' := ReturnedIsStep(cfg, s, run, t);
    SaveAnswers(cfg, e, ev, e');
    var x := ev.call.sessionID;
    assert SessionEvolves(e, e', x) && SessionEvolves(e', After(cfg, s, run).exam, x);
    checkedAt := ev.checkedAt;
  }

  // ---- whose sessions, and how many ----

  /** A SaveResponse or SubmitSession call that succeeds was made by the session's owner. */
  lemma OnlyOwnersSucceed(cfg: Config, s: State, run: seq<Action>, t: nat)
    requires Init(cfg, s) && IsRun(cfg, s, run) && Returned(After(cfg, s, run), t)
    requires !After(cfg, s, run).txns[t].call.StartCall? && !After(cfg, s, run).txns[t].phase.outcome.Failed?
    ensures var u := After(cfg, s, run); var call := u.txns[t].call;
            call.sessionID in u.exam.sessions && u.exam.sessions[call.sessionID].userID == call.userID
  {
    var e, ev, e' := ReturnedIsStep(cfg, s, run, t);
    if ev.call.SaveCall? {
      SaveAnswers(cfg, e, ev, e');
    } else {
      SubmitAnswers(cfg, e, ev, e');
    }
    var x := ev.call.sessionID;
    assert SessionEvolves(e, e', x) && SessionEvolves(e', After(cfg, s, run).exam, x);
  }

  /** The session that StartSession returned is the user's, at the delivery, with these trimmed names. */
  lemma StartedIsOwn(cfg: Config, s: State, run: seq<Action>, t: nat)
    requires Init(cfg, s) && IsRun(cfg, s, run) && Returned(After(cfg, s, run), t)
    requires After(cfg, s, run).txns[t].call.StartCall? && After(cfg, s, run).txns[t].phase.outcome.Started?
    ensures var u := After(cfg, s, run); var txn := u.txns[t];
            && txn.phase.outcome.sessionID in u.exam.sessions
            && var row := u.exam.sessions[txn.phase.outcome.sessionID];
               && row.deliveryID == TrimSpace(txn.call.deliveryID) && row.userID == TrimSpace(txn.call.userID)
               && row.attempt == txn.phase.outcome.session.attempt
  {
    var e, ev, e' := ReturnedIsStep(cfg, s, run, t);
    StartGives(cfg, e, ev, e');
    assert SessionEvolves(e', After(cfg, s, run).exam, ev.outcome.sessionID);
  }

  // No two of a user's sessions at a delivery have the same number, the numbers are those from 1 to how
  // many there are, which is at most what the delivery allows, and all but one are completed.
  ghost predicate Consecutive(cfg: Config, e: Exam, d: string, u: string)
    requires d in cfg.deliveries
  {
    var mine := Attempts(e, d, u);
    && |mine| <= Allowed(cfg.deliveries[d])
    && (forall x, y | x in mine && y in mine && e.sessions[x].attempt == e.sessions[y].attempt :: x == y)
    && (set x | x in mine :: e.sessions[x].attempt) == UpTo(|mine|)
    && (forall x, y | x in mine && y in mine && e.sessions[x].status != Completed
                      && e.sessions[y].status != Completed :: x == y)
  }

  lemma NumberedIsConsecutive(cfg: Config, e: Exam, d: string, u: string)
    requires d in cfg.deliveries && AttemptsOk(cfg, e, d, u)
    ensures Consecutive(cfg, e, d, u)
  {
    AttemptsAreSessions(e, d, u);
    NumbersOf(cfg, e, d, u);
  }

  /** After any interleaving, the attempts of every user at every delivery are numbered consecutively. */
  lemma AttemptsAreConsecutive(cfg: Config, s: State, run: seq<Action>, d: string, u: string)
    requires Init(cfg, s) && IsRun(cfg, s, run) && d in cfg.deliveries
    ensures Consecutive(cfg, After(cfg, s, run).exam, d, u)
  {
    RunKeepsInv(cfg, s, run);
    NumberedIsConsecutive(cfg, After(cfg, s, run).exam, d, u);
  }

  /**
   Every row of a completed session bears the mark that its answer earns by the first row of the test with
   its item, and the total is their sum.
   */
  lemma CompletedSessionsBearTheirMarks(cfg: Config, s: State, run: seq<Action>, x: string)
    requires Init(cfg, s) && IsRun(cfg, s, run) && WasCompleted(After(cfg, s, run).exam, x)
    ensures var e := After(cfg, s, run).exam;
            && AllMarkedAt(cfg, e.sessions[x].deliveryID, Rows(e, x))
            && e.sessions[x].totalScore == Sum(Scores(Rows(e, x)))
  {
    RunKeepsInv(cfg, s, run);
    MarksAreWeighted(cfg, After(cfg, s, run).exam, x);
  }
}
