/** The invariant of the session protocol holds in every state of every interleaving. */
module SessionInvariant {
  import opened Wrappers
  import opened Assessment
  import opened SessionSpec
  import opened SessionLaws
  import opened SessionProtocol
  import opened SessionRefinement

  // ---- locks ----

  // The next phase says of itself exactly the locks that the statement takes or gives back.
  predicate LocksMatch(txn: Txn, next: Next) {
    var after := txn.(phase := PhaseAfter(next));
    match next
    case LockDelivery(d, _) => DeliveryHeld(txn).None? && DeliveryHeld(after) == Some(d)
        && SessionHeld(after) == SessionHeld(txn)
    case LockSession(x, _) => SessionHeld(txn).None? && SessionHeld(after) == Some(x)
        && DeliveryHeld(after) == DeliveryHeld(txn)
    case End(_, _) => DeliveryHeld(after).None? && SessionHeld(after).None?
    case _ => DeliveryHeld(after) == DeliveryHeld(txn) && SessionHeld(after) == SessionHeld(txn)
  }

  lemma NextMatchesLocks(cfg: Config, e: Exam, clock: int, txn: Txn, pick: string)
    requires Runs(txn) && ChoiceOk(e, txn, pick)
    ensures LocksMatch(txn, NextOf(cfg, e, clock, txn, pick))
  {
  }

  lemma LocksKept(s: State, t: nat, next: Next)
    requires LocksOk(s) && t in s.txns && LocksMatch(s.txns[t], next) && Unblocked(s, next)
    ensures LocksOk(Move(s, t, next))
  {
    DeliveryLocksKept(s, t, next);
    SessionLocksKept(s, t, next);
  }

  lemma DeliveryLocksKept(s: State, t: nat, next: Next)
    requires DeliveryLocksOk(s) && t in s.txns && LocksMatch(s.txns[t], next) && Unblocked(s, next)
    ensures DeliveryLocksOk(Move(s, t, next))
  {
  }

  lemma SessionLocksKept(s: State, t: nat, next: Next)
    requires SessionLocksOk(s) && t in s.txns && LocksMatch(s.txns[t], next) && Unblocked(s, next)
    ensures SessionLocksOk(Move(s, t, next))
  {
  }

  // ---- the stepping transaction's own facts ----

  lemma StartOwnFacts(cfg: Config, e: Exam, clock: int, idOwner: map<string, nat>, t: nat, txn: Txn, pick: string)
    requires e.sessions.Keys <= idOwner.Keys
    requires txn.call.StartCall? && Runs(txn) && ChoiceOk(e, txn, pick) && StartOk(cfg, e, idOwner, t, txn)
    ensures var next := StartNext(cfg, e, clock, txn, pick);
            (next.DrawId? ==> next.id !in idOwner) ==>
              StartOk(cfg, ExamAfter(e, next), OwnersAfter(idOwner, t, next), t, txn.(phase := PhaseAfter(next)))
  {
  }

  lemma SaveOwnFacts(cfg: Config, e: Exam, clock: int, txn: Txn)
    requires txn.call.SaveCall? && Runs(txn) && SaveOk(cfg, e, txn)
    ensures var next := SaveNext(cfg, e, clock, txn);
            SaveOk(cfg, ExamAfter(e, next), txn.(phase := PhaseAfter(next)))
  {
  }

  lemma MarkOneRow(
    cfg: Config, d: string, rows: map<string, Response>,
    todo: map<string, Response>, marked: map<string, Response>, total: real, pick: string, row: Response)
    requires MarkingOk(cfg, d, rows, todo, marked, total) && pick in todo && Scorable(cfg, d, pick)
    requires row == Marked(cfg, d, pick, todo[pick])
    ensures MarkingOk(cfg, d, rows, todo - {pick}, marked[pick := row], total + row.score)
  {
    ScoresWithRow(marked, pick, row);
  }

  lemma ScoresWithRow(marked: map<string, Response>, pick: string, row: Response)
    requires pick !in marked
    ensures Sum(Scores(marked[pick := row])) == Sum(Scores(marked)) + row.score
  {
    SumWithRow(Scores(marked), pick, row.score);
    assert Scores(marked[pick := row]) == Scores(marked)[pick := row.score];
  }

  lemma AllRowsMarked(cfg: Config, d: string, rows: map<string, Response>, marked: map<string, Response>, total: real)
    requires MarkingOk(cfg, d, rows, map[], marked, total)
    ensures AllScorable(cfg, d, rows) && marked == MarkedRows(cfg, d, rows)
  {
    assert marked.Keys == rows.Keys;
  }

  lemma SubmitOwnFacts(cfg: Config, e: Exam, clock: int, completedBy: map<string, nat>, t: nat, txn: Txn, pick: string)
    requires txn.call.SubmitCall? && Runs(txn) && ChoiceOk(e, txn, pick) && SubmitOk(cfg, e, completedBy, t, txn)
    ensures var next := SubmitNext(cfg, e, clock, txn, pick);
            SubmitOk(cfg, ExamAfter(e, next), CompletersAfter(completedBy, t, txn.call, next), t,
                txn.(phase := PhaseAfter(next)))
  {
    match txn.phase
    case Marking(session, todo, marked, total) =>
      var rows := Rows(e, txn.call.sessionID);
      if todo == map[] {
        AllRowsMarked(cfg, session.deliveryID, rows, marked, total);
      } else if Scorable(cfg, session.deliveryID, pick) {
        MarkOneRow(cfg, session.deliveryID, rows, todo, marked, total, pick,
            Marked(cfg, session.deliveryID, pick, todo[pick]));
      }
    case _ =>
  }

  // ---- the other transactions' facts ----

  // A statement touches, of the tables, only what its transaction has locked or newly drawn.
  ghost predicate TouchesOwn(e: Exam, idOwner: map<string, nat>, t: nat, txn: Txn, e': Exam) {
    && (forall d | DeliveryHeld(txn) != Some(d) :: DeliveryStable(e, e', d))
    && (forall x | SessionHeld(txn) != Some(x) :: SessionStable(e, e', x))
    && (forall id | id in e'.sessions && id !in e.sessions :: id in idOwner && idOwner[id] == t)
  }

  lemma NextTouchesOwn(cfg: Config, s: State, t: nat, pick: string)
    requires t in s.txns && Runs(s.txns[t]) && ChoiceOk(s.exam, s.txns[t], pick)
    requires TxnOk(cfg, s.exam, s.idOwner, s.completedBy, t, s.txns[t])
    ensures TouchesOwn(
              s.exam, s.idOwner, t, s.txns[t], ExamAfter(s.exam, NextOf(cfg, s.exam, s.clock, s.txns[t], pick)))
  {
    var txn := s.txns[t];
    match txn.call
    case StartCall(_, _) => StartTouchesOwn(cfg, s.exam, s.clock, s.idOwner, t, txn, pick);
    case SaveCall(_, _, _, _) => SaveTouchesOwn(cfg, s.exam, s.clock, s.idOwner, t, txn);
    case SubmitCall(_, _) => SubmitTouchesOwn(cfg, s.exam, s.clock, s.idOwner, s.completedBy, t, txn, pick);
  }

  lemma StartTouchesOwn(cfg: Config, e: Exam, clock: int, idOwner: map<string, nat>, t: nat, txn: Txn, pick: string)
    requires txn.call.StartCall? && Runs(txn) && ChoiceOk(e, txn, pick) && StartOk(cfg, e, idOwner, t, txn)
    ensures TouchesOwn(e, idOwner, t, txn, ExamAfter(e, StartNext(cfg, e, clock, txn, pick)))
  {
    Unchanged(e);
    if txn.phase.Inserting? {
      AddTouches(e, txn.phase.id, txn.phase.row);
    } else if txn.phase.Beginning? {
      BeginTouches(e, txn.phase.id, txn.phase.row);
    }
  }

  lemma SaveTouchesOwn(cfg: Config, e: Exam, clock: int, idOwner: map<string, nat>, t: nat, txn: Txn)
    requires txn.call.SaveCall? && Runs(txn) && SaveOk(cfg, e, txn)
    ensures TouchesOwn(e, idOwner, t, txn, ExamAfter(e, SaveNext(cfg, e, clock, txn)))
  {
    Unchanged(e);
    if txn.phase.ResponseWritten? {
      SaveTouches(e, txn.call.sessionID, txn.call.itemID, txn.phase.response);
    }
  }

  lemma SubmitTouchesOwn(
      cfg: Config, e: Exam, clock: int, idOwner: map<string, nat>, completedBy: map<string, nat>, t: nat, txn: Txn,
      pick: string)
    requires txn.call.SubmitCall? && Runs(txn) && ChoiceOk(e, txn, pick) && SubmitOk(cfg, e, completedBy, t, txn)
    ensures TouchesOwn(e, idOwner, t, txn, ExamAfter(e, SubmitNext(cfg, e, clock, txn, pick)))
  {
    Unchanged(e);
    if txn.phase.Completing? {
      CompleteTouches(e, txn.call.sessionID, txn.phase.row, txn.phase.marked);
    }
  }

  // No two transactions hold the same lock.
  predicate LocksApart(txn: Txn, other: Txn) {
    && (DeliveryHeld(other).Some? ==> DeliveryHeld(txn) != DeliveryHeld(other))
    && (SessionHeld(other).Some? ==> SessionHeld(txn) != SessionHeld(other))
  }

  lemma LocksOkApart(s: State, t: nat, o: nat)
    requires LocksOk(s) && t in s.txns && o in s.txns && o != t
    ensures LocksApart(s.txns[t], s.txns[o])
  {
  }

  lemma OthersKept(cfg: Config, s: State, t: nat, next: Next, o: nat, txn: Txn)
    requires t in s.txns && Unblocked(s, next) && LocksApart(s.txns[t], txn) && o != t
    requires TxnOk(cfg, s.exam, s.idOwner, s.completedBy, o, txn)
    requires Evolves(s.exam, ExamAfter(s.exam, next))
    requires TouchesOwn(s.exam, s.idOwner, t, s.txns[t], ExamAfter(s.exam, next))
    requires next.End? && CompletesHere(next.outcome) && s.txns[t].call.SubmitCall? ==>
        s.txns[t].call.sessionID !in s.completedBy
    ensures TxnOk(
              cfg, ExamAfter(s.exam, next), OwnersAfter(s.idOwner, t, next),
              CompletersAfter(s.completedBy, t, s.txns[t].call, next), o, txn)
  {
    var e, e' := s.exam, ExamAfter(s.exam, next);
    match txn.call
    case StartCall(_, _) => StartStable(cfg, e, e', s.idOwner, OwnersAfter(s.idOwner, t, next), o, txn);
    case SaveCall(_, _, _, _) => SaveStable(cfg, e, e', txn);
    case SubmitCall(_, _) => SubmitStable(cfg, e, e', s.completedBy,
        CompletersAfter(s.completedBy, t, s.txns[t].call, next), o, txn);
  }
}
