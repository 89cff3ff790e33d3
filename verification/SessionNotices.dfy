/**
 The completions of a run and what was announced of them: every session that a run completes is
 announced by the transaction that completed it, once, or is still to be.
 */
module SessionNotices {
  import opened Assessment
  import opened SessionSpec
  import opened SessionProtocol
  import opened SessionTheorems

  predicate IsCompleted(e: Exam, x: string) {
    x in e.sessions && e.sessions[x].status == Completed
  }

  // A transaction that completed x, and announced it or has yet to.
  predicate CompletedIt(txn: Txn, x: string) {
    && txn.call.SubmitCall? && txn.call.sessionID == x
    && txn.phase.Closed? && CompletesHere(txn.phase.outcome)
  }

  // The completion of x is on record, and announced exactly when its transaction did so.
  predicate OnRecord(s: State, x: string) {
    && x in s.completedBy && s.completedBy[x] in s.txns
    && CompletedIt(s.txns[s.completedBy[x]], x)
    && (s.txns[s.completedBy[x]].phase.notified <==> x in s.notices)
  }

  // The transactions that completed something are those on record.
  ghost predicate RecordsOk(s: State) {
    && (forall x | x in s.completedBy :: OnRecord(s, x))
    && (forall x | x in s.notices :: x in s.completedBy)
    && (forall t, x | t in s.txns && CompletedIt(s.txns[t], x) :: x in s.completedBy && s.completedBy[x] == t)
  }

  // ---- statements ----

  // The session that a statement completes, if it is this one.
  predicate CompletesNow(txn: Txn, next: Next, x: string) {
    next.End? && CompletesHere(next.outcome) && txn.call.SubmitCall? && txn.call.sessionID == x
  }

  // A statement completes the one session that it says it completes.
  lemma StatementCompletes(
      cfg: Config, e: Exam, clock: int, idOwner: map<string, nat>, completedBy: map<string, nat>,
      t: nat, txn: Txn, pick: string, x: string)
    requires Runs(txn) && ChoiceOk(e, txn, pick) && TxnOk(cfg, e, idOwner, completedBy, t, txn)
    ensures var next := NextOf(cfg, e, clock, txn, pick);
            IsCompleted(ExamAfter(e, next), x) <==> IsCompleted(e, x) || CompletesNow(txn, next, x)
  {
    match txn.call
    case StartCall(_, _) => StartCompletesNothing(cfg, e, clock, idOwner, t, txn, pick, x);
    case SaveCall(_, _, _, _) =>
    case SubmitCall(_, _) => SubmitCompletes(cfg, e, clock, completedBy, t, txn, pick, x);
  }

  lemma StartCompletesNothing(
      cfg: Config, e: Exam, clock: int, idOwner: map<string, nat>, t: nat, txn: Txn, pick: string, x: string)
    requires txn.call.StartCall? && Runs(txn) && ChoiceOk(e, txn, pick) && StartOk(cfg, e, idOwner, t, txn)
    ensures IsCompleted(ExamAfter(e, StartNext(cfg, e, clock, txn, pick)), x) <==> IsCompleted(e, x)
  {
  }

  lemma SubmitCompletes(
      cfg: Config, e: Exam, clock: int, completedBy: map<string, nat>, t: nat, txn: Txn, pick: string, x: string)
    requires txn.call.SubmitCall? && Runs(txn) && ChoiceOk(e, txn, pick) && SubmitOk(cfg, e, completedBy, t, txn)
    ensures var next := SubmitNext(cfg, e, clock, txn, pick);
            IsCompleted(ExamAfter(e, next), x) <==> IsCompleted(e, x) || CompletesNow(txn, next, x)
  {
  }

  lemma OnlyTheEndCloses(cfg: Config, e: Exam, clock: int, txn: Txn, pick: string)
    requires Runs(txn) && ChoiceOk(e, txn, pick)
    ensures PhaseAfter(NextOf(cfg, e, clock, txn, pick)).Closed? ==> NextOf(cfg, e, clock, txn, pick).End?
  {
  }

  // ---- actions ----

  lemma MoveKeepsRecords(s: State, t: nat, next: Next)
    requires RecordsOk(s) && t in s.txns && Runs(s.txns[t])
    requires (PhaseAfter(next).Closed? ==> next.End?) && forall x | CompletesNow(s.txns[t], next, x) ::
        x !in s.completedBy
    ensures RecordsOk(Move(s, t, next))
  {
    var s' := Move(s, t, next);
    forall x | x in s'.completedBy ensures OnRecord(s', x) {
      if x in s.completedBy {
        assert OnRecord(s, x) && !CompletesNow(s.txns[t], next, x);
      } else {
        assert CompletesNow(s.txns[t], next, x) && x !in s.notices;
      }
    }
    forall o, x | o in s'.txns && CompletedIt(s'.txns[o], x) ensures x in s'.completedBy && s'.completedBy[x] == o {
      if o != t {
        assert CompletedIt(s.txns[o], x) && !CompletesNow(s.txns[t], next, x);
      } else {
        assert CompletesNow(s.txns[t], next, x);
      }
    }
  }

  lemma NotifyKeepsRecords(cfg: Config, s: State, t: nat)
    requires RecordsOk(s) && Enabled(cfg, s, Notify(t))
    ensures RecordsOk(Apply(cfg, s, Notify(t)))
  {
    var s' := Apply(cfg, s, Notify(t));
    assert CompletedIt(s.txns[t], s.txns[t].call.sessionID);
    forall x | x in s'.completedBy ensures OnRecord(s', x) {
      assert OnRecord(s, x);
    }
  }

  lemma OpenKeepsRecords(cfg: Config, s: State, t: nat, call: Call)
    requires RecordsOk(s) && t !in s.txns
    ensures RecordsOk(Apply(cfg, s, Open(t, call)))
  {
    forall x | x in s.completedBy ensures OnRecord(Apply(cfg, s, Open(t, call)), x) {
      assert OnRecord(s, x);
    }
  }

  lemma TickKeepsRecords(cfg: Config, s: State, ticks: nat)
    requires RecordsOk(s)
    ensures RecordsOk(Apply(cfg, s, Tick(ticks)))
  {
    forall x | x in s.completedBy ensures OnRecord(Apply(cfg, s, Tick(ticks)), x) {
      assert OnRecord(s, x);
    }
  }

  lemma ActionKeepsRecords(cfg: Config, s: State, a: Action)
    requires Inv(cfg, s) && RecordsOk(s) && Enabled(cfg, s, a)
    ensures RecordsOk(Apply(cfg, s, a))
  {
    match a
    case Tick(ticks) => TickKeepsRecords(cfg, s, ticks);
    case Open(t, call) => OpenKeepsRecords(cfg, s, t, call);
    case Abort(t) => MoveKeepsRecords(s, t, End(s.exam, Failed(DatabaseFailure)));
    case Notify(t) => NotifyKeepsRecords(cfg, s, t);
    case Advance(t, pick) =>
      CompletesFresh(cfg, s, t, pick);
      OnlyTheEndCloses(cfg, s.exam, s.clock, s.txns[t], pick);
      MoveKeepsRecords(s, t, NextOf(cfg, s.exam, s.clock, s.txns[t], pick));
  }

  // What was completed from one state to the other is on record, and what was before is not put there.
  predicate Records(s: State, s': State, x: string) {
    && (IsCompleted(s.exam, x) ==> IsCompleted(s'.exam, x))
    && (IsCompleted(s'.exam, x) && !IsCompleted(s.exam, x) ==> x in s'.completedBy)
    && (IsCompleted(s.exam, x) ==> (x in s'.completedBy <==> x in s.completedBy))
    && (x in s.completedBy ==> x in s'.completedBy)
  }

  lemma ActionRecords(cfg: Config, s: State, a: Action, x: string)
    requires Inv(cfg, s) && Enabled(cfg, s, a)
    ensures Records(s, Apply(cfg, s, a), x)
  {
    if a.Advance? {
      StatementRecords(cfg, s, a.t, a.pick, x);
    }
  }

  lemma StatementRecords(cfg: Config, s: State, t: nat, pick: string, x: string)
    requires Inv(cfg, s) && Enabled(cfg, s, Advance(t, pick))
    ensures var next := NextOf(cfg, s.exam, s.clock, s.txns[t], pick);
            && (IsCompleted(ExamAfter(s.exam, next), x) <==> IsCompleted(s.exam, x) || CompletesNow(s.txns[t], next, x))
            && !(IsCompleted(s.exam, x) && CompletesNow(s.txns[t], next, x))
  {
    var txn := s.txns[t];
    assert TxnOk(cfg, s.exam, s.idOwner, s.completedBy, t, txn);
    StatementCompletes(cfg, s.exam, s.clock, s.idOwner, s.completedBy, t, txn, pick, x);
    if txn.call.SubmitCall? {
      CompletionIsFresh(cfg, s.exam, s.clock, s.completedBy, t, txn, pick);
    }
  }

  // ---- runs ----

  lemma {:induction false} RunKeepsRecords(cfg: Config, s: State, run: seq<Action>, x: string)
    requires Inv(cfg, s) && RecordsOk(s) && IsRun(cfg, s, run)
    ensures RecordsOk(After(cfg, s, run)) && Records(s, After(cfg, s, run), x)
    decreases |run|
  {
    if run != [] {
      var s1 := Apply(cfg, s, run[0]);
      ActionKeepsInv(cfg, s, run[0]);
      ActionKeepsRecords(cfg, s, run[0]);
      ActionRecords(cfg, s, run[0], x);
      RunKeepsRecords(cfg, s1, run[1..], x);
      RecordsTransitive(s, s1, After(cfg, s, run), x);
    }
  }

  lemma RecordsTransitive(s: State, t: State, u: State, x: string)
    requires Records(s, t, x) && Records(t, u, x)
    ensures Records(s, u, x)
  {
  }

  /**
   After any interleaving, the sessions that the run completed are exactly those announced and those
   whose completing transaction has yet to announce them; once none has, exactly those announced.
   */
  lemma CompletionsAreAnnounced(cfg: Config, s: State, run: seq<Action>, x: string)
    requires Init(cfg, s) && IsRun(cfg, s, run)
    ensures var s' := After(cfg, s, run);
            && (x in s'.notices ==> IsCompleted(s'.exam, x) && !IsCompleted(s.exam, x))
            && (IsCompleted(s'.exam, x) && !IsCompleted(s.exam, x) ==>
                  x in s'.notices
                  || exists t :: t in s'.txns && ToAnnounce(s'.txns[t]) && s'.txns[t].call.sessionID == x)
            && ((forall t | t in s'.txns :: !ToAnnounce(s'.txns[t])) ==>
                  (x in s'.notices <==> IsCompleted(s'.exam, x) && !IsCompleted(s.exam, x)))
  {
    RunKeepsInv(cfg, s, run);
    RunKeepsRecords(cfg, s, run, x);
    RecordedIsAnnounced(After(cfg, s, run), x);
  }

  lemma RecordedIsAnnounced(s: State, x: string)
    requires RecordsOk(s) && NoticesOk(s)
    ensures x in s.notices ==> x in s.completedBy && IsCompleted(s.exam, x)
    ensures x in s.completedBy ==>
              x in s.notices || exists t :: t in s.txns && ToAnnounce(s.txns[t]) && s.txns[t].call.sessionID == x
  {
    if x in s.completedBy {
      assert OnRecord(s, x);
      if x !in s.notices {
        assert ToAnnounce(s.txns[s.completedBy[x]]);
      }
    }
  }
}
