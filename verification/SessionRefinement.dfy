/**
 Every interleaving of session transactions is an interleaving of atomic session calls. A call takes
 effect at its commit when it writes, and otherwise at the read that decides its outcome.
 */
module SessionRefinement {
  import opened Wrappers
  import opened Assessment
  import opened SessionSpec
  import opened SessionLaws
  import opened SessionProtocol

  // The outcome that a transaction is bound to give unless the database fails it.
  function Decided(txn: Txn): Option<Outcome> {
    match txn.phase
    case Resuming(id, row) => Some(Started(id, row))
    case Resubmitted(session, rows) => Some(Submitted(session, rows, false))
    case Closed(outcome, _) => if outcome == Failed(DatabaseFailure) then None else Some(outcome)
    case _ => None
  }

  // The clock samples that the transaction took before a step, or takes in it.
  function Sampled(phase: Phase, clock: int): (int, int) {
    match phase
    case Eligible(now) => (now, now)
    case NoneOpen(now) => (now, now)
    case Inserting(_, row) => if row.startedAt.Some? then (row.startedAt.value, row.startedAt.value) else (clock, clock)
    case Beginning(_, row) => if row.startedAt.Some? then (row.startedAt.value, row.startedAt.value) else (clock, clock)
    case InTime(_, checkedAt) => (checkedAt, clock)
    case ResponseWritten(checkedAt, response) => (checkedAt, response.respondedAt)
    case Completing(row, _) => if row.finishedAt.Some? then (row.finishedAt.value, row.finishedAt.value)
        else (clock, clock)
    case _ => (clock, clock)
  }

  // The atomic call that takes effect when a transaction does its next statement, if one does.
  function Effect(clock: int, txn: Txn, next: Next): Option<Event> {
    var after := txn.(phase := PhaseAfter(next));
    if Decided(txn).None? && Decided(after).Some? then
      Some(Event(txn.call, Sampled(txn.phase, clock).0, Sampled(txn.phase, clock).1, Decided(after).value))
    else None
  }

  // The statement is one atomic call on the committed tables, or leaves them alone.
  ghost predicate StepOrStutter(cfg: Config, e: Exam, clock: int, txn: Txn, next: Next) {
    match Effect(clock, txn, next)
    case Some(ev) => Step(cfg, e, ev, ExamAfter(e, next))
    case None => ExamAfter(e, next) == e
  }

  lemma StartRefines(cfg: Config, s: State, t: nat, pick: string)
    requires t in s.txns && s.txns[t].call.StartCall? && Runs(s.txns[t]) && ChoiceOk(s.exam, s.txns[t], pick)
    requires StartOk(cfg, s.exam, s.idOwner, t, s.txns[t])
    ensures StepOrStutter(cfg, s.exam, s.clock, s.txns[t], StartNext(cfg, s.exam, s.clock, s.txns[t], pick))
  {
  }

  lemma SaveRefines(cfg: Config, e: Exam, clock: int, txn: Txn)
    requires txn.call.SaveCall? && Runs(txn) && SaveOk(cfg, e, txn)
    ensures StepOrStutter(cfg, e, clock, txn, SaveNext(cfg, e, clock, txn))
  {
  }

  lemma SubmitRefines(cfg: Config, e: Exam, clock: int, completedBy: map<string, nat>, t: nat, txn: Txn, pick: string)
    requires txn.call.SubmitCall? && Runs(txn) && ChoiceOk(e, txn, pick) && SubmitOk(cfg, e, completedBy, t, txn)
    ensures StepOrStutter(cfg, e, clock, txn, SubmitNext(cfg, e, clock, txn, pick))
  {
    if txn.phase.Marking? && txn.phase.todo != map[] {
      assert pick in Rows(e, txn.call.sessionID);
    }
  }

  /** Every statement of every transaction is one atomic call on the committed tables, or leaves them alone. */
  lemma StatementRefines(cfg: Config, s: State, t: nat, pick: string)
    requires Inv(cfg, s) && Enabled(cfg, s, Advance(t, pick))
    ensures StepOrStutter(cfg, s.exam, s.clock, s.txns[t], NextOf(cfg, s.exam, s.clock, s.txns[t], pick))
  {
    assert TxnOk(cfg, s.exam, s.idOwner, s.completedBy, t, s.txns[t]);
    match s.txns[t].call
    case StartCall(_, _) => StartRefines(cfg, s, t, pick);
    case SaveCall(_, _, _, _) => SaveRefines(cfg, s.exam, s.clock, s.txns[t]);
    case SubmitCall(_, _) => SubmitRefines(cfg, s.exam, s.clock, s.completedBy, t, s.txns[t], pick);
  }

  // ---- what others may do to the facts a transaction relies on ----

  // While someone else works, a locked delivery gains no session, opens none, and keeps the rows of
  // its sessions that are not started.
  ghost predicate DeliveryStable(e: Exam, e': Exam, d: string) {
    && (forall u :: SessionsOf(e', d, u) == SessionsOf(e, d, u) && OpenSessions(e', d, u) <= OpenSessions(e, d, u))
    && (forall x | x in e.sessions && e.sessions[x].deliveryID == d && e.sessions[x].status == NotStarted ::
          x in e'.sessions && e'.sessions[x] == e.sessions[x])
  }

  ghost predicate SessionStable(e: Exam, e': Exam, x: string) {
    x in e.sessions ==> x in e'.sessions && e'.sessions[x] == e.sessions[x] && Rows(e', x) == Rows(e, x)
  }

  // The identifiers that t drew stay its own, and nobody else inserts them.
  ghost predicate IdsStable(e: Exam, e': Exam, idOwner: map<string, nat>, idOwner': map<string, nat>, t: nat) {
    forall id | id in idOwner && idOwner[id] == t ::
      id in idOwner' && idOwner'[id] == t && (id !in e.sessions ==> id !in e'.sessions)
  }

  lemma StartStable(
      cfg: Config, e: Exam, e': Exam, idOwner: map<string, nat>, idOwner': map<string, nat>, t: nat, txn: Txn)
    requires txn.call.StartCall? && StartOk(cfg, e, idOwner, t, txn)
    requires Evolves(e, e') && IdsStable(e, e', idOwner, idOwner', t)
    requires DeliveryHeld(txn).Some? ==> DeliveryStable(e, e', DeliveryOf(txn.call))
    ensures StartOk(cfg, e', idOwner', t, txn)
  {
    var d, u := DeliveryOf(txn.call), UserOf(txn.call);
    if txn.phase.Found? || txn.phase.Beginning? {
      assert LatestOpen(e, d, u, txn.phase.id);
      forall x | x in OpenSessions(e', d, u)
        ensures e'.sessions[x].attempt <= e'.sessions[txn.phase.id].attempt
      {
        assert SessionEvolves(e, e', x);
      }
    }
  }

  lemma SaveStable(cfg: Config, e: Exam, e': Exam, txn: Txn)
    requires txn.call.SaveCall? && SaveOk(cfg, e, txn)
    requires SessionHeld(txn).Some? ==> SessionStable(e, e', txn.call.sessionID)
    ensures SaveOk(cfg, e', txn)
  {
  }

  lemma SubmitStable(
      cfg: Config, e: Exam, e': Exam, completedBy: map<string, nat>, completedBy': map<string, nat>, t: nat, txn: Txn)
    requires txn.call.SubmitCall? && SubmitOk(cfg, e, completedBy, t, txn)
    requires Evolves(e, e')
    requires forall x | x in completedBy :: x in completedBy' && completedBy'[x] == completedBy[x]
    requires SessionHeld(txn).Some? ==> SessionStable(e, e', txn.call.sessionID)
    ensures SubmitOk(cfg, e', completedBy', t, txn)
  {
    if txn.phase.Closed? && txn.phase.outcome.Submitted? {
      assert SessionEvolves(e, e', txn.call.sessionID);
    }
  }

  lemma Unchanged(e: Exam)
    ensures Evolves(e, e) && (forall d :: DeliveryStable(e, e, d)) && (forall x :: SessionStable(e, e, x))
  {
  }

  lemma AddTouches(e: Exam, id: string, row: Session)
    requires id !in e.sessions
    ensures forall d | d != row.deliveryID :: DeliveryStable(e, AddSession(e, id, row), d)
    ensures forall x :: SessionStable(e, AddSession(e, id, row), x)
  {
  }

  lemma BeginTouches(e: Exam, id: string, row: Session)
    requires id in e.sessions && row.deliveryID == e.sessions[id].deliveryID
    ensures forall d | d != row.deliveryID :: DeliveryStable(e, PutSession(e, id, row), d)
    ensures forall x | x != id :: SessionStable(e, PutSession(e, id, row), x)
  {
  }

  lemma SaveTouches(e: Exam, s: string, itemID: string, row: Response)
    ensures forall d :: DeliveryStable(e, PutResponse(e, s, itemID, row), d)
    ensures forall x | x != s :: SessionStable(e, PutResponse(e, s, itemID, row), x)
  {
  }

  lemma CompleteTouches(e: Exam, s: string, row: Session, rows: map<string, Response>)
    requires s in e.sessions && e.sessions[s].status == InProgress && row.status == Completed
    requires Of(row, e.sessions[s].deliveryID, e.sessions[s].userID)
    ensures forall d :: DeliveryStable(e, CompleteSession(e, s, row, rows), d)
    ensures forall x | x != s :: SessionStable(e, CompleteSession(e, s, row, rows), x)
  {
  }
}
