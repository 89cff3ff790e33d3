/** What holds over every interleaving of the session calls. */
module SessionTheorems {
  import opened Wrappers
  import opened Assessment
  import opened SessionSpec
  import opened SessionLaws
  import opened SessionProtocol
  import opened SessionRefinement
  import opened SessionInvariant

  // ---- one step ----

  lemma StatementKeepsTables(cfg: Config, s: State, t: nat, pick: string)
    requires Inv(cfg, s) && Enabled(cfg, s, Advance(t, pick))
    ensures TablesOk(cfg, Apply(cfg, s, Advance(t, pick)).exam) && Evolves(s.exam, Apply(cfg, s, Advance(t, pick)).exam)
  {
    var next := NextOf(cfg, s.exam, s.clock, s.txns[t], pick);
    StatementRefines(cfg, s, t, pick);
    match Effect(s.clock, s.txns[t], next)
    case Some(ev) =>
      StepKeepsTables(cfg, s.exam, ev, ExamAfter(s.exam, next));
      StepEvolves(cfg, s.exam, ev, ExamAfter(s.exam, next));
    case None =>
      Unchanged(s.exam);
  }

  // Only a session in progress is completed, and nobody completed it before.
  lemma CompletesFresh(cfg: Config, s: State, t: nat, pick: string)
    requires Inv(cfg, s) && Enabled(cfg, s, Advance(t, pick))
    ensures var next := NextOf(cfg, s.exam, s.clock, s.txns[t], pick);
            next.End? && CompletesHere(next.outcome) && s.txns[t].call.SubmitCall? ==>
              && s.txns[t].call.sessionID !in s.completedBy
              && s.txns[t].call.sessionID in next.exam.sessions
              && next.exam.sessions[s.txns[t].call.sessionID].status == Completed
  {
    var txn := s.txns[t];
    assert TxnOk(cfg, s.exam, s.idOwner, s.completedBy, t, txn);
    if txn.call.SubmitCall? {
      CompletionIsFresh(cfg, s.exam, s.clock, s.completedBy, t, txn, pick);
    }
  }

  lemma CompletionIsFresh(
      cfg: Config, e: Exam, clock: int, completedBy: map<string, nat>, t: nat, txn: Txn, pick: string)
    requires txn.call.SubmitCall? && Runs(txn) && ChoiceOk(e, txn, pick) && SubmitOk(cfg, e, completedBy, t, txn)
    ensures var next, x := SubmitNext(cfg, e, clock, txn, pick), txn.call.sessionID;
            next.End? && CompletesHere(next.outcome) ==>
              && x in e.sessions && e.sessions[x].status == InProgress
              && x in next.exam.sessions && next.exam.sessions[x].status == Completed
  {
  }

  lemma StatementKeepsNotices(s: State, t: nat, next: Next)
    requires NoticesOk(s) && t in s.txns && Runs(s.txns[t]) && Evolves(s.exam, ExamAfter(s.exam, next))
    requires next.End? && CompletesHere(next.outcome) && s.txns[t].call.SubmitCall? ==>
               && s.txns[t].call.sessionID !in s.completedBy
               && s.txns[t].call.sessionID in next.exam.sessions
               && next.exam.sessions[s.txns[t].call.sessionID].status == Completed
    ensures NoticesOk(Move(s, t, next))
  {
    var s' := Move(s, t, next);
    forall x | x in s'.completedBy ensures x in s'.exam.sessions && s'.exam.sessions[x].status == Completed {
      if x in s.completedBy {
        assert SessionEvolves(s.exam, s'.exam, x);
      }
    }
    forall x | x in s'.notices ensures Announced(s', x) {
      assert Announced(s, x);
    }
  }

  lemma StatementKeepsOwnFacts(cfg: Config, s: State, t: nat, pick: string)
    requires Inv(cfg, s) && Enabled(cfg, s, Advance(t, pick))
    ensures var s' := Apply(cfg, s, Advance(t, pick));
            TxnOk(cfg, s'.exam, s'.idOwner, s'.completedBy, t, s'.txns[t])
  {
    var txn := s.txns[t];
    assert TxnOk(cfg, s.exam, s.idOwner, s.completedBy, t, txn);
    match txn.call
    case StartCall(_, _) => StartOwnFacts(cfg, s.exam, s.clock, s.idOwner, t, txn, pick);
    case SaveCall(_, _, _, _) => SaveOwnFacts(cfg, s.exam, s.clock, txn);
    case SubmitCall(_, _) => SubmitOwnFacts(cfg, s.exam, s.clock, s.completedBy, t, txn, pick);
  }

  lemma StatementKeepsInv(cfg: Config, s: State, t: nat, pick: string)
    requires Inv(cfg, s) && Enabled(cfg, s, Advance(t, pick))
    ensures Inv(cfg, Apply(cfg, s, Advance(t, pick)))
  {
    var next := NextOf(cfg, s.exam, s.clock, s.txns[t], pick);
    var s' := Move(s, t, next);
    assert s' == Apply(cfg, s, Advance(t, pick));
    StatementKeepsTables(cfg, s, t, pick);
    NextMatchesLocks(cfg, s.exam, s.clock, s.txns[t], pick);
    LocksKept(s, t, next);
    CompletesFresh(cfg, s, t, pick);
    StatementKeepsNotices(s, t, next);
    assert TouchesOwn(s.exam, s.idOwner, t, s.txns[t], s'.exam) by {
      assert TxnOk(cfg, s.exam, s.idOwner, s.completedBy, t, s.txns[t]);
      NextTouchesOwn(cfg, s, t, pick);
    }
    StatementKeepsOwnFacts(cfg, s, t, pick);
    OthersKeepFacts(cfg, s, t, next);
  }

  lemma OthersKeepFacts(cfg: Config, s: State, t: nat, next: Next)
    requires t in s.txns && LocksOk(s) && Unblocked(s, next) && Evolves(s.exam, ExamAfter(s.exam, next))
    requires forall o | o in s.txns :: TxnOk(cfg, s.exam, s.idOwner, s.completedBy, o, s.txns[o])
    requires TouchesOwn(s.exam, s.idOwner, t, s.txns[t], ExamAfter(s.exam, next))
    requires next.End? && CompletesHere(next.outcome) && s.txns[t].call.SubmitCall? ==>
               s.txns[t].call.sessionID !in s.completedBy
    ensures var s' := Move(s, t, next);
            forall o | o in s.txns && o != t :: TxnOk(cfg, s'.exam, s'.idOwner, s'.completedBy, o, s'.txns[o])
  {
    var s' := Move(s, t, next);
    forall o | o in s.txns && o != t ensures TxnOk(cfg, s'.exam, s'.idOwner, s'.completedBy, o, s'.txns[o]) {
      assert TxnOk(cfg, s.exam, s.idOwner, s.completedBy, o, s.txns[o]);
      LocksOkApart(s, t, o);
      OthersKept(cfg, s, t, next, o, s.txns[o]);
    }
  }

  lemma AbortKeepsInv(cfg: Config, s: State, t: nat)
    requires Inv(cfg, s) && Enabled(cfg, s, Abort(t))
    ensures Inv(cfg, Apply(cfg, s, Abort(t)))
  {
    var next := End(s.exam, Failed(DatabaseFailure));
    var s' := Move(s, t, next);
    LocksKept(s, t, next);
    Unchanged(s.exam);
    StatementKeepsNotices(s, t, next);
    forall o | o in s'.txns ensures TxnOk(cfg, s'.exam, s'.idOwner, s'.completedBy, o, s'.txns[o]) {
      assert TxnOk(cfg, s.exam, s.idOwner, s.completedBy, o, s.txns[o]);
    }
  }

  lemma NotifyKeepsNotices(cfg: Config, s: State, t: nat)
    requires NoticesOk(s) && Enabled(cfg, s, Notify(t))
    requires s.txns[t].call.sessionID in s.completedBy && s.completedBy[s.txns[t].call.sessionID] == t
    ensures NoticesOk(Apply(cfg, s, Notify(t)))
  {
    var s' := Apply(cfg, s, Notify(t));
    var x := s.txns[t].call.sessionID;
    assert !Announced(s, x);
    forall y | y in s'.notices ensures Announced(s', y) {
      assert y == x || Announced(s, y);
    }
  }

  lemma NotifyKeepsInv(cfg: Config, s: State, t: nat)
    requires Inv(cfg, s) && Enabled(cfg, s, Notify(t))
    ensures Inv(cfg, Apply(cfg, s, Notify(t)))
  {
    NotifyKeepsTxns(cfg, s, t);
    assert SubmitOk(cfg, s.exam, s.completedBy, t, s.txns[t]) by {
      assert TxnOk(cfg, s.exam, s.idOwner, s.completedBy, t, s.txns[t]);
    }
    NotifyKeepsNotices(cfg, s, t);
    NotifyKeepsLocks(cfg, s, t);
  }

  lemma NotifyKeepsTxns(cfg: Config, s: State, t: nat)
    requires Enabled(cfg, s, Notify(t))
    requires forall o | o in s.txns :: TxnOk(cfg, s.exam, s.idOwner, s.completedBy, o, s.txns[o])
    ensures var s' := Apply(cfg, s, Notify(t));
            forall o | o in s'.txns :: TxnOk(cfg, s'.exam, s'.idOwner, s'.completedBy, o, s'.txns[o])
  {
    var s' := Apply(cfg, s, Notify(t));
    forall o | o in s'.txns ensures TxnOk(cfg, s'.exam, s'.idOwner, s'.completedBy, o, s'.txns[o]) {
      assert TxnOk(cfg, s.exam, s.idOwner, s.completedBy, o, s.txns[o]);
    }
  }

  lemma NotifyKeepsLocks(cfg: Config, s: State, t: nat)
    requires LocksOk(s) && Enabled(cfg, s, Notify(t))
    ensures LocksOk(Apply(cfg, s, Notify(t)))
  {
  }

  lemma OpenKeepsLocks(cfg: Config, s: State, t: nat, call: Call)
    requires LocksOk(s) && t !in s.txns
    ensures LocksOk(Apply(cfg, s, Open(t, call)))
  {
  }

  lemma OpenKeepsNotices(cfg: Config, s: State, t: nat, call: Call)
    requires NoticesOk(s) && t !in s.txns
    ensures NoticesOk(Apply(cfg, s, Open(t, call)))
  {
    forall x | x in s.notices ensures Announced(Apply(cfg, s, Open(t, call)), x) {
      assert Announced(s, x);
    }
  }

  lemma OpenKeepsInv(cfg: Config, s: State, t: nat, call: Call)
    requires Inv(cfg, s) && t !in s.txns
    ensures Inv(cfg, Apply(cfg, s, Open(t, call)))
  {
    var s' := Apply(cfg, s, Open(t, call));
    OpenKeepsLocks(cfg, s, t, call);
    forall o | o in s'.txns ensures TxnOk(cfg, s'.exam, s'.idOwner, s'.completedBy, o, s'.txns[o]) {
      if o != t {
        assert TxnOk(cfg, s.exam, s.idOwner, s.completedBy, o, s.txns[o]);
      }
    }
    OpenKeepsNotices(cfg, s, t, call);
  }

  lemma TickKeepsInv(cfg: Config, s: State, ticks: nat)
    requires Inv(cfg, s)
    ensures Inv(cfg, Apply(cfg, s, Tick(ticks)))
  {
    var s' := Apply(cfg, s, Tick(ticks));
    forall x | x in s'.notices ensures Announced(s', x) {
      assert Announced(s, x);
    }
  }

  /** Every action keeps the invariant, and no session loses what it may not lose. */
  lemma ActionKeepsInv(cfg: Config, s: State, a: Action)
    requires Inv(cfg, s) && Enabled(cfg, s, a)
    ensures Inv(cfg, Apply(cfg, s, a)) && Evolves(s.exam, Apply(cfg, s, a).exam)
  {
    Unchanged(s.exam);
    match a
    case Tick(ticks) => TickKeepsInv(cfg, s, ticks);
    case Open(t, call) => OpenKeepsInv(cfg, s, t, call);
    case Abort(t) => AbortKeepsInv(cfg, s, t);
    case Notify(t) => NotifyKeepsInv(cfg, s, t);
    case Advance(t, pick) =>
      StatementKeepsInv(cfg, s, t, pick);
      StatementKeepsTables(cfg, s, t, pick);
  }

  // ---- runs ----

  // A run is a list of actions, each enabled where it is taken.
  predicate IsRun(cfg: Config, s: State, run: seq<Action>)
    decreases |run|
  {
    run != [] ==> Enabled(cfg, s, run[0]) && IsRun(cfg, Apply(cfg, s, run[0]), run[1..])
  }

  function After(cfg: Config, s: State, run: seq<Action>): State
    requires IsRun(cfg, s, run)
    decreases |run|
  {
    if run == [] then s else After(cfg, Apply(cfg, s, run[0]), run[1..])
  }

  lemma {:induction false} RunKeepsInv(cfg: Config, s: State, run: seq<Action>)
    requires Inv(cfg, s) && IsRun(cfg, s, run)
    ensures Inv(cfg, After(cfg, s, run)) && Evolves(s.exam, After(cfg, s, run).exam)
    decreases |run|
  {
    if run == [] {
      Unchanged(s.exam);
    } else {
      var s' := Apply(cfg, s, run[0]);
      ActionKeepsInv(cfg, s, run[0]);
      RunKeepsInv(cfg, s', run[1..]);
      EvolvesTransitive(s.exam, s'.exam, After(cfg, s, run).exam);
    }
  }

  lemma InitHoldsInv(cfg: Config, s: State)
    requires Init(cfg, s)
    ensures Inv(cfg, s)
  {
  }

  // ---- safety over whole runs ----

  /**
   After any interleaving, a user's attempts at a delivery are numbered exactly 1..n, n is within the
   limit, and at most one of them is not completed.
   */
  lemma AttemptsStayNumbered(cfg: Config, s: State, run: seq<Action>, d: string, u: string)
    requires Init(cfg, s) && IsRun(cfg, s, run)
    ensures var e := After(cfg, s, run).exam;
            && (set x | x in SessionsOf(e, d, u) :: e.sessions[x].attempt) == UpTo(|SessionsOf(e, d, u)|)
            && |SessionsOf(e, d, u)| <= AttemptLimit(cfg, d)
            && |OpenSessions(e, d, u)| <= 1
  {
    RunKeepsInv(cfg, s, run);
    AttemptsAreOneToN(cfg, After(cfg, s, run).exam, d, u);
  }

  /**
   Once a session is completed, at whatever point of a run, its total is the sum of the scores of its
   rows, each row bears the score that its answer earns, and neither the session nor any of its rows
   changes in the rest of the run.
   */
  lemma CompletedSessionsAreFinal(cfg: Config, s: State, run: seq<Action>, more: seq<Action>, x: string)
    requires Init(cfg, s) && IsRun(cfg, s, run) && IsRun(cfg, After(cfg, s, run), more)
    requires x in After(cfg, s, run).exam.sessions && After(cfg, s, run).exam.sessions[x].status == Completed
    ensures var e, later := After(cfg, s, run).exam, After(cfg, After(cfg, s, run), more).exam;
            && e.sessions[x].totalScore == Sum(Scores(Rows(e, x)))
            && (forall k | k in Rows(e, x) ::
                  && Scorable(cfg, e.sessions[x].deliveryID, k)
                  && Rows(e, x)[k] == Marked(cfg, e.sessions[x].deliveryID, k, Rows(e, x)[k]))
            && x in later.sessions && later.sessions[x] == e.sessions[x] && Rows(later, x) == Rows(e, x)
  {
    RunKeepsInv(cfg, s, run);
    var mid := After(cfg, s, run);
    RunKeepsInv(cfg, mid, more);
    assert SessionEvolves(mid.exam, After(cfg, mid, more).exam, x);
    assert RowsOk(cfg, mid.exam.sessions[x], Rows(mid.exam, x), mid.exam.log[x]);
  }

  /**
   However many submissions of a session run at once, one transaction at most completes it, the
   session is announced at most once and only then, and every submission that succeeds returns the
   stored result.
   */
  lemma SubmissionHappensOnce(cfg: Config, s: State, run: seq<Action>)
    requires Init(cfg, s) && IsRun(cfg, s, run)
    ensures SubmittedOnce(After(cfg, s, run))
  {
    RunKeepsInv(cfg, s, run);
    SubmissionsOk(cfg, After(cfg, s, run));
  }

  // No two submissions complete a session, no session is announced twice or before it is completed,
  // and every submission that succeeded returned what is stored.
  ghost predicate SubmittedOnce(s: State) {
    && (forall t, o | Completer(s, t) && Completer(s, o) && s.txns[t].call.sessionID == s.txns[o].call.sessionID ::
        t == o)
    && (forall i, j | 0 <= i < j < |s.notices| :: s.notices[i] != s.notices[j])
    && (forall x | x in s.notices :: x in s.exam.sessions && s.exam.sessions[x].status == Completed)
    && (forall t | t in s.txns && s.txns[t].call.SubmitCall? && s.txns[t].phase.Closed?
                   && s.txns[t].phase.outcome.Submitted? ::
          StoredResult(s.exam, s.txns[t].call.sessionID, s.txns[t].phase.outcome.submitted,
              s.txns[t].phase.outcome.rows))
  }

  predicate Completer(s: State, t: nat) {
    t in s.txns && s.txns[t].call.SubmitCall? && s.txns[t].phase.Closed? && CompletesHere(s.txns[t].phase.outcome)
  }

  // What a submission that has ended leaves.
  predicate Settled(s: State, t: nat)
    requires t in s.txns && s.txns[t].call.SubmitCall?
  {
    var x, phase := s.txns[t].call.sessionID, s.txns[t].phase;
    phase.Closed? && phase.outcome.Submitted? ==>
      && StoredResult(s.exam, x, phase.outcome.submitted, phase.outcome.rows)
      && (CompletesHere(phase.outcome) ==> x in s.completedBy && s.completedBy[x] == t)
  }

  lemma SubmissionsOk(cfg: Config, s: State)
    requires Inv(cfg, s)
    ensures SubmittedOnce(s)
  {
    forall t | t in s.txns && s.txns[t].call.SubmitCall? ensures Settled(s, t) {
      assert TxnOk(cfg, s.exam, s.idOwner, s.completedBy, t, s.txns[t]);
    }
    AnnouncedIsCompleted(s);
  }

  lemma AnnouncedIsCompleted(s: State)
    requires NoticesOk(s)
    ensures forall x | x in s.notices :: x in s.exam.sessions && s.exam.sessions[x].status == Completed
  {
    forall x | x in s.notices ensures x in s.exam.sessions && s.exam.sessions[x].status == Completed {
      assert Announced(s, x);
    }
  }

  /** Whatever happens to a session that has started, its start never changes. */
  lemma StartNeverMoves(cfg: Config, s: State, run: seq<Action>, x: string)
    requires Inv(cfg, s) && IsRun(cfg, s, run) && x in s.exam.sessions && s.exam.sessions[x].status != NotStarted
    ensures x in After(cfg, s, run).exam.sessions
    ensures After(cfg, s, run).exam.sessions[x].startedAt == s.exam.sessions[x].startedAt
  {
    RunKeepsInv(cfg, s, run);
    assert SessionEvolves(s.exam, After(cfg, s, run).exam, x);
  }

  // ---- expiry ----

  // The limit has passed, and no save got past the check of the limit before that.
  ghost predicate AnswersClosed(cfg: Config, s: State, x: string) {
    && x in s.exam.sessions && s.exam.sessions[x].status != NotStarted && Expired(cfg, s.exam.sessions[x], s.clock)
    && forall t | t in s.txns && s.txns[t].call.SaveCall? && s.txns[t].call.sessionID == x ::
         !s.txns[t].phase.InTime? && !s.txns[t].phase.ResponseWritten?
  }

  // The outcome of a save of x that was open before: none yet, or a refusal.
  ghost predicate RefusedOrOpen(s: State, x: string, t: nat) {
    t in s.txns && s.txns[t].call.SaveCall? && s.txns[t].call.sessionID == x && s.txns[t].phase.Closed? ==>
      s.txns[t].phase.outcome.Failed?
  }

  // The save that is refused as expired held the row lock, so no other save had passed the check.
  lemma RefusalClosesAnswers(cfg: Config, s: State, t: nat)
    requires Inv(cfg, s) && t in s.txns && s.txns[t].call.SaveCall? && s.txns[t].phase.SessionLocked?
    requires SaveNext(cfg, s.exam, s.clock, s.txns[t]) == End(s.exam, Failed(SessionExpired))
    ensures AnswersClosed(cfg, Move(s, t, End(s.exam, Failed(SessionExpired))), s.txns[t].call.sessionID)
  {
    assert TxnOk(cfg, s.exam, s.idOwner, s.completedBy, t, s.txns[t]);
    NobodyElsePastTheCheck(s, s.txns[t].call.sessionID, t);
  }

  lemma NobodyElsePastTheCheck(s: State, x: string, t: nat)
    requires LocksOk(s) && t in s.txns && SessionHeld(s.txns[t]) == Some(x)
    ensures forall o | o in s.txns && o != t && s.txns[o].call.SaveCall? && s.txns[o].call.sessionID == x ::
              !s.txns[o].phase.InTime? && !s.txns[o].phase.ResponseWritten?
  {
    forall o | o in s.txns && o != t && s.txns[o].call.SaveCall? && s.txns[o].call.sessionID == x
      ensures !s.txns[o].phase.InTime? && !s.txns[o].phase.ResponseWritten?
    {
      if s.txns[o].phase.InTime? || s.txns[o].phase.ResponseWritten? {
        OneHolder(s, x, t, o);
      }
    }
  }

  lemma OneHolder(s: State, x: string, t: nat, o: nat)
    requires LocksOk(s) && t in s.txns && o in s.txns
    requires SessionHeld(s.txns[t]) == Some(x) && SessionHeld(s.txns[o]) == Some(x)
    ensures t == o
  {
  }

  lemma ActionKeepsAnswersClosed(cfg: Config, s: State, a: Action, x: string)
    requires Inv(cfg, s) && Enabled(cfg, s, a) && AnswersClosed(cfg, s, x)
    ensures AnswersClosed(cfg, Apply(cfg, s, a), x) && History(Apply(cfg, s, a).exam, x) == History(s.exam, x)
    ensures forall t | RefusedOrOpen(s, x, t) :: RefusedOrOpen(Apply(cfg, s, a), x, t)
  {
    if a.Advance? {
      StatementKeepsAnswersClosed(cfg, s, a.t, a.pick, x);
    } else {
      OtherActionKeepsAnswersClosed(cfg, s, a, x);
    }
  }

  lemma OtherActionKeepsAnswersClosed(cfg: Config, s: State, a: Action, x: string)
    requires Enabled(cfg, s, a) && !a.Advance? && AnswersClosed(cfg, s, x)
    ensures AnswersClosed(cfg, Apply(cfg, s, a), x) && History(Apply(cfg, s, a).exam, x) == History(s.exam, x)
    ensures forall t | RefusedOrOpen(s, x, t) :: RefusedOrOpen(Apply(cfg, s, a), x, t)
  {
  }

  lemma StatementKeepsAnswersClosed(cfg: Config, s: State, t: nat, pick: string, x: string)
    requires Inv(cfg, s) && Enabled(cfg, s, Advance(t, pick)) && AnswersClosed(cfg, s, x)
    ensures var s' := Apply(cfg, s, Advance(t, pick));
            && AnswersClosed(cfg, s', x) && History(s'.exam, x) == History(s.exam, x)
            && forall o | RefusedOrOpen(s, x, o) :: RefusedOrOpen(s', x, o)
  {
    var next := NextOf(cfg, s.exam, s.clock, s.txns[t], pick);
    StatementKeepsTables(cfg, s, t, pick);
    assert SessionEvolves(s.exam, ExamAfter(s.exam, next), x);
    assert TxnOk(cfg, s.exam, s.idOwner, s.completedBy, t, s.txns[t]);
    StatementMeetsExpiry(cfg, s.exam, s.clock, s.idOwner, t, s.txns[t], pick, x);
    MoveKeepsAnswersClosed(cfg, s, t, next, x);
  }

  // A statement that adds no answer to x, and takes no save of x past the check.
  ghost predicate AddsNoAnswer(e: Exam, txn: Txn, next: Next, x: string) {
    && History(ExamAfter(e, next), x) == History(e, x)
    && (txn.call.SaveCall? && txn.call.sessionID == x ==>
          var after := PhaseAfter(next);
          !after.InTime? && !after.ResponseWritten? && (after.Closed? ==> after.outcome.Failed?))
  }

  lemma MoveKeepsAnswersClosed(cfg: Config, s: State, t: nat, next: Next, x: string)
    requires AnswersClosed(cfg, s, x) && t in s.txns && Runs(s.txns[t])
    requires SessionEvolves(s.exam, ExamAfter(s.exam, next), x) && AddsNoAnswer(s.exam, s.txns[t], next, x)
    ensures AnswersClosed(cfg, Move(s, t, next), x)
    ensures forall o | RefusedOrOpen(s, x, o) :: RefusedOrOpen(Move(s, t, next), x, o)
  {
  }

  lemma StatementMeetsExpiry(
      cfg: Config, e: Exam, clock: int, idOwner: map<string, nat>, t: nat, txn: Txn, pick: string, x: string)
    requires Runs(txn) && ChoiceOk(e, txn, pick) && x in e.sessions && x in e.log && Expired(cfg, e.sessions[x], clock)
    requires txn.call.StartCall? ==> StartOk(cfg, e, idOwner, t, txn)
    requires txn.call.SaveCall? ==> SaveOk(cfg, e, txn)
    requires txn.call.SaveCall? && txn.call.sessionID == x ==> !txn.phase.InTime? && !txn.phase.ResponseWritten?
    ensures AddsNoAnswer(e, txn, NextOf(cfg, e, clock, txn, pick), x)
  {
    if txn.call.SaveCall? && txn.call.sessionID == x {
      SaveMeetsExpiry(cfg, e, clock, txn);
    } else {
      OtherHistoryKept(cfg, e, clock, txn, pick, x);
    }
  }

  lemma SaveMeetsExpiry(cfg: Config, e: Exam, clock: int, txn: Txn)
    requires txn.call.SaveCall? && Runs(txn) && SaveOk(cfg, e, txn) && !txn.phase.InTime? && !txn.phase.ResponseWritten?
    requires txn.call.sessionID in e.sessions && Expired(cfg, e.sessions[txn.call.sessionID], clock)
    ensures var next := SaveNext(cfg, e, clock, txn);
            var after := PhaseAfter(next);
            ExamAfter(e, next) == e && !after.InTime? && !after.ResponseWritten?
                && (after.Closed? ==> after.outcome.Failed?)
  {
  }

  lemma OtherHistoryKept(cfg: Config, e: Exam, clock: int, txn: Txn, pick: string, x: string)
    requires Runs(txn) && ChoiceOk(e, txn, pick) && x in e.sessions && x in e.log
    requires !(txn.call.SaveCall? && txn.call.sessionID == x)
    requires txn.phase.Inserting? ==> txn.phase.id != x
    ensures History(ExamAfter(e, NextOf(cfg, e, clock, txn, pick)), x) == History(e, x)
  {
  }

  /**
   Once a save was refused as expired, every save of the session that is then open or comes later is
   refused, and the session's answers stay as they are for the rest of the run.
   */
  lemma {:induction false} ExpiryIsForever(cfg: Config, s: State, run: seq<Action>, x: string)
    requires Inv(cfg, s) && AnswersClosed(cfg, s, x) && IsRun(cfg, s, run)
    ensures var s' := After(cfg, s, run);
            && x in s'.exam.sessions && Data(Rows(s'.exam, x)) == Data(Rows(s.exam, x))
            && forall t | RefusedOrOpen(s, x, t) :: RefusedOrOpen(s', x, t)
    decreases |run|
  {
    if run != [] {
      var s1 := Apply(cfg, s, run[0]);
      ActionKeepsInv(cfg, s, run[0]);
      ActionKeepsAnswersClosed(cfg, s, run[0], x);
      assert RowsOk(cfg, s.exam.sessions[x], Rows(s.exam, x), s.exam.log[x]);
      assert RowsOk(cfg, s1.exam.sessions[x], Rows(s1.exam, x), s1.exam.log[x]);
      ExpiryIsForever(cfg, s1, run[1..], x);
    }
  }

  // The time check is where a save is refused as expired.
  lemma ExpiredAtTheCheck(cfg: Config, e: Exam, clock: int, txn: Txn)
    requires txn.call.SaveCall? && Runs(txn)
    requires PhaseAfter(SaveNext(cfg, e, clock, txn)) == Closed(Failed(SessionExpired), false)
    ensures txn.phase.SessionLocked? && SaveNext(cfg, e, clock, txn) == End(e, Failed(SessionExpired))
  {
  }

  lemma RefusalIsExpiry(cfg: Config, s: State, t: nat, pick: string)
    requires Inv(cfg, s) && Enabled(cfg, s, Advance(t, pick)) && s.txns[t].call.SaveCall?
    requires Apply(cfg, s, Advance(t, pick)).txns[t].phase == Closed(Failed(SessionExpired), false)
    ensures var s1 := Apply(cfg, s, Advance(t, pick));
            AnswersClosed(cfg, s1, s.txns[t].call.sessionID) && s1.exam == s.exam
    ensures var s1 := Apply(cfg, s, Advance(t, pick));
            forall o | o in s1.txns && s1.txns[o].phase.Closed? && !(o in s.txns && s.txns[o].phase.Closed?) ::
              s1.txns[o].phase.outcome.Failed?
  {
    ExpiredAtTheCheck(cfg, s.exam, s.clock, s.txns[t]);
    RefusalClosesAnswers(cfg, s, t);
    assert Apply(cfg, s, Advance(t, pick)) == Move(s, t, End(s.exam, Failed(SessionExpired)));
  }

  /**
   Once one save of a session is refused as expired, whatever the interleaving before and after: no
   save of the session that was not closed by then is ever accepted, and its answers stay as they are.
   */
  lemma OneRefusalIsForever(cfg: Config, s: State, t: nat, pick: string, more: seq<Action>)
    requires Inv(cfg, s) && Enabled(cfg, s, Advance(t, pick)) && s.txns[t].call.SaveCall?
    requires Apply(cfg, s, Advance(t, pick)).txns[t].phase == Closed(Failed(SessionExpired), false)
    requires IsRun(cfg, Apply(cfg, s, Advance(t, pick)), more)
    ensures var x, s' := s.txns[t].call.sessionID, After(cfg, Apply(cfg, s, Advance(t, pick)), more);
            && x in s'.exam.sessions && Data(Rows(s'.exam, x)) == Data(Rows(s.exam, x))
            && forall o | o in s'.txns && s'.txns[o].call.SaveCall? && s'.txns[o].call.sessionID == x
                && s'.txns[o].phase.Closed?
                          && !(o in s.txns && s.txns[o].phase.Closed?) ::
                 s'.txns[o].phase.outcome.Failed?
  {
    var s1 := Apply(cfg, s, Advance(t, pick));
    ActionKeepsInv(cfg, s, Advance(t, pick));
    RefusalIsExpiry(cfg, s, t, pick);
    RefusedFromHere(cfg, s1, more, s.txns[t].call.sessionID);
  }

  // ExpiryIsForever for the saves that are not closed, or closed with a refusal.
  lemma RefusedFromHere(cfg: Config, s: State, run: seq<Action>, x: string)
    requires Inv(cfg, s) && AnswersClosed(cfg, s, x) && IsRun(cfg, s, run)
    ensures var s' := After(cfg, s, run);
            && x in s'.exam.sessions && Data(Rows(s'.exam, x)) == Data(Rows(s.exam, x))
            && forall o | o in s'.txns && s'.txns[o].call.SaveCall? && s'.txns[o].call.sessionID == x
                && s'.txns[o].phase.Closed?
                          && !(o in s.txns && s.txns[o].phase.Closed? && !s.txns[o].phase.outcome.Failed?) ::
                 s'.txns[o].phase.outcome.Failed?
  {
    ExpiryIsForever(cfg, s, run, x);
    forall o | !(o in s.txns && s.txns[o].phase.Closed? && !s.txns[o].phase.outcome.Failed?)
      ensures RefusedOrOpen(After(cfg, s, run), x, o)
    {
      assert RefusedOrOpen(s, x, o);
    }
  }
}
