/**
 The session calls as concurrent transactions on PostgreSQL at READ COMMITTED, one statement a step.
 A statement sees the committed tables and its own transaction's writes. StartSession locks the
 delivery row, SaveResponse and SubmitSession lock the session row; row locks last to the end of the
 transaction. Any statement, and the commit, may fail.
 */
module SessionProtocol {
  import opened Wrappers
  import opened Text
  import opened Assessment
  import opened SessionSpec

  datatype Phase =
    | Waiting                                   // before the locking read
    // StartSession
    | DeliveryLocked
    | Eligible(now: int)                        // window and groups checked
    | NoneOpen(now: int)                        // no open session found
    | Counted(now: int, attempts: nat)
    | Inserting(id: string, row: Session)       // insert issued
    | Found(now: int, id: string, row: Session) // open but not started
    | Beginning(id: string, row: Session)       // update issued, session row locked
    | Resuming(id: string, row: Session)        // open and already started
    // SaveResponse
    | SessionLocked(session: Session)
    | InTime(session: Session, checkedAt: int)
    | ResponseWritten(checkedAt: int, response: Response)
    // SubmitSession
    | SubmitLocked(session: Session)
    | Marking(session: Session, todo: map<string, Response>, marked: map<string, Response>, total: real)
    | Completing(row: Session, marked: map<string, Response>)
    | Resubmitted(session: Session, rows: map<string, Response>)
    // committed or rolled back; a completing submission then notifies
    | Closed(outcome: Outcome, notified: bool)

  // A call, how far its transaction is, and the clock when it was made.
  datatype Txn = Txn(call: Call, phase: Phase, openedAt: int)

  datatype State = State(
    exam: Exam,                          // committed tables
    clock: int,
    txns: map<nat, Txn>,
    deliveryLocks: map<string, nat>,
    sessionLocks: map<string, nat>,
    idOwner: map<string, nat>,           // which transaction drew an identifier
    completedBy: map<string, nat>,       // which transaction completed a session
    notices: seq<string>)                // sessions whose completion was announced

  datatype Action =
    | Tick(ticks: nat)
    | Open(t: nat, call: Call)
    | Advance(t: nat, pick: string)      // pick resolves the statement's free choice, if it has one
    | Abort(t: nat)
    | Notify(t: nat)

  // ---- steps ----

  function DeliveryOf(call: Call): string
    requires call.StartCall?
  {
    TrimSpace(call.deliveryID)
  }

  function UserOf(call: Call): string
    requires call.StartCall?
  {
    TrimSpace(call.userID)
  }

  // What a transaction's next statement does.
  datatype Next =
    | Continue(phase: Phase)
    | LockDelivery(deliveryID: string, phase: Phase) // wait for the row lock, take it, and go on
    | LockSession(sessionID: string, phase: Phase)
    | DrawId(id: string, phase: Phase)               // draw a fresh identifier
    | End(exam: Exam, outcome: Outcome)              // commit these tables, or roll back to the old ones

  predicate Runs(txn: Txn) {
    match txn.call
    case StartCall(_, _) =>
      var p := txn.phase;
      || p.Waiting? || p.DeliveryLocked? || p.Eligible? || p.NoneOpen? || p.Counted?
      || p.Inserting? || p.Found? || p.Beginning? || p.Resuming?
    case SaveCall(_, _, _, _) =>
      txn.phase.Waiting? || txn.phase.SessionLocked? || txn.phase.InTime? || txn.phase.ResponseWritten?
    case SubmitCall(_, _) =>
      txn.phase.Waiting? || txn.phase.SubmitLocked? || txn.phase.Marking? || txn.phase.Completing?
          || txn.phase.Resubmitted?
  }

  // The query for the latest open session returns one; the rows of a submission come in any order.
  predicate ChoiceOk(e: Exam, txn: Txn, pick: string) {
    && (txn.call.StartCall? && txn.phase.Eligible? && OpenSessions(e, DeliveryOf(txn.call), UserOf(txn.call)) != {} ==>
          LatestOpen(e, DeliveryOf(txn.call), UserOf(txn.call), pick))
    && (txn.phase.Marking? && txn.phase.todo != map[] ==> pick in txn.phase.todo)
  }

  function StartNext(cfg: Config, e: Exam, clock: int, txn: Txn, pick: string): Next
    requires txn.call.StartCall? && Runs(txn) && ChoiceOk(e, txn, pick)
  {
    var d, u := DeliveryOf(txn.call), UserOf(txn.call);
    match txn.phase
    case Waiting =>
      if d == "" || u == "" || d !in cfg.deliveries then End(e, Failed(DeliveryNotFound))
      else LockDelivery(d, DeliveryLocked)
    case DeliveryLocked =>
      var refusal := StartRefusal(cfg, d, u, clock);
      if refusal.Some? then End(e, Failed(refusal.value)) else Continue(Eligible(clock))
    case Eligible(now) =>
      if OpenSessions(e, d, u) == {} then Continue(NoneOpen(now))
      else if e.sessions[pick].status == NotStarted then Continue(Found(now, pick, e.sessions[pick]))
      else Continue(Resuming(pick, e.sessions[pick]))
    case NoneOpen(now) =>
      var attempts := |SessionsOf(e, d, u)|;
      if attempts >= AttemptLimit(cfg, d) then End(e, Failed(MaxAttempts)) else Continue(Counted(now, attempts))
    case Counted(now, attempts) => DrawId(pick, Inserting(pick, NewSession(d, u, attempts + 1, now)))
    case Inserting(id, row) => End(AddSession(e, id, row), Started(id, row))
    case Found(now, id, row) => LockSession(id, Beginning(id, Begun(row, now)))
    case Beginning(id, row) => End(PutSession(e, id, row), Started(id, row))
    case Resuming(id, row) => End(e, Started(id, row))
  }

  function SaveNext(cfg: Config, e: Exam, clock: int, txn: Txn): Next
    requires txn.call.SaveCall? && Runs(txn)
  {
    var x := txn.call.sessionID;
    match txn.phase
    case Waiting =>
      if !Owned(e, x, txn.call.userID) then End(e, Failed(SessionNotFound))
      else LockSession(x, SessionLocked(e.sessions[x]))
    case SessionLocked(session) =>
      if session.status == Completed then End(e, Failed(SessionCompleted))
      else if session.status != InProgress || session.startedAt.None? then End(e, Failed(SessionNotActive))
      else if Expired(cfg, session, clock) then End(e, Failed(SessionExpired))
      else Continue(InTime(session, clock))
    case InTime(session, checkedAt) =>
      if FindTestItem(cfg, session.deliveryID, txn.call.itemID).None? then End(e, Failed(ItemNotInDelivery))
      else Continue(ResponseWritten(checkedAt, Response(txn.call.data, clock, 0.0, false)))
    case ResponseWritten(_, response) => End(PutResponse(e, x, txn.call.itemID, response), Saved(response))
  }

  function SubmitNext(cfg: Config, e: Exam, clock: int, txn: Txn, pick: string): Next
    requires txn.call.SubmitCall? && Runs(txn) && ChoiceOk(e, txn, pick)
  {
    var x := txn.call.sessionID;
    match txn.phase
    case Waiting =>
      if !Owned(e, x, txn.call.userID) then End(e, Failed(SessionNotFound))
      else LockSession(x, SubmitLocked(e.sessions[x]))
    case SubmitLocked(session) =>
      if session.status == Completed then Continue(Resubmitted(session, Rows(e, x)))
      else if session.status != InProgress then End(e, Failed(SessionNotActive))
      else Continue(Marking(session, Rows(e, x), map[], 0.0))
    case Marking(session, todo, marked, total) =>
      if todo == map[] then
        // The conditional update of the session row, and the row count it returns.
        if x in e.sessions && e.sessions[x].status == InProgress
            then Continue(Completing(Finished(session, total, clock), marked))
        else End(e, Failed(SessionCompleted))
      else if FindTestItem(cfg, session.deliveryID, pick).None? then End(e, Failed(ItemNotInDelivery))
      else if !Scorable(cfg, session.deliveryID, pick) then End(e, Failed(InvalidScoring))
      else
        var row := Marked(cfg, session.deliveryID, pick, todo[pick]);
        Continue(Marking(session, todo - {pick}, marked[pick := row], total + row.score))
    case Completing(row, marked) => End(CompleteSession(e, x, row, marked), Submitted(row, marked, true))
    case Resubmitted(session, rows) => End(e, Submitted(session, rows, false))
  }

  function NextOf(cfg: Config, e: Exam, clock: int, txn: Txn, pick: string): Next
    requires Runs(txn) && ChoiceOk(e, txn, pick)
  {
    match txn.call
    case StartCall(_, _) => StartNext(cfg, e, clock, txn, pick)
    case SaveCall(_, _, _, _) => SaveNext(cfg, e, clock, txn)
    case SubmitCall(_, _) => SubmitNext(cfg, e, clock, txn, pick)
  }

  function PhaseAfter(next: Next): Phase {
    if next.End? then Closed(next.outcome, false) else next.phase
  }

  function ExamAfter(e: Exam, next: Next): Exam {
    if next.End? then next.exam else e
  }

  // A lock is taken when it is free, and an identifier drawn when nobody drew it before.
  predicate Unblocked(s: State, next: Next) {
    match next
    case LockDelivery(d, _) => d !in s.deliveryLocks
    case LockSession(x, _) => x !in s.sessionLocks
    case DrawId(id, _) => id !in s.idOwner
    case _ => true
  }

  function Release(locks: map<string, nat>, t: nat): map<string, nat> {
    map k | k in locks && locks[k] != t :: locks[k]
  }

  predicate CompletesHere(outcome: Outcome) {
    outcome.Submitted? && outcome.completedHere
  }

  function DeliveryLocksAfter(locks: map<string, nat>, t: nat, next: Next): map<string, nat> {
    if next.LockDelivery? then locks[next.deliveryID := t] else if next.End? then Release(locks, t) else locks
  }

  function SessionLocksAfter(locks: map<string, nat>, t: nat, next: Next): map<string, nat> {
    if next.LockSession? then locks[next.sessionID := t] else if next.End? then Release(locks, t) else locks
  }

  function OwnersAfter(idOwner: map<string, nat>, t: nat, next: Next): map<string, nat> {
    if next.DrawId? then idOwner[next.id := t] else idOwner
  }

  function CompletersAfter(completedBy: map<string, nat>, t: nat, call: Call, next: Next): map<string, nat> {
    if next.End? && CompletesHere(next.outcome) && call.SubmitCall? then completedBy[call.sessionID := t]
        else completedBy
  }

  function Move(s: State, t: nat, next: Next): State
    requires t in s.txns
  {
    State(
      ExamAfter(s.exam, next), s.clock, s.txns[t := s.txns[t].(phase := PhaseAfter(next))],
      DeliveryLocksAfter(s.deliveryLocks, t, next), SessionLocksAfter(s.sessionLocks, t, next),
      OwnersAfter(s.idOwner, t, next), CompletersAfter(s.completedBy, t, s.txns[t].call, next), s.notices)
  }

  // A committed completion that has not been announced yet.
  predicate ToAnnounce(txn: Txn) {
    txn.call.SubmitCall? && txn.phase.Closed? && CompletesHere(txn.phase.outcome) && !txn.phase.notified
  }

  predicate Enabled(cfg: Config, s: State, a: Action) {
    match a
    case Tick(_) => true
    case Open(t, _) => t !in s.txns
    case Advance(t, pick) =>
      && t in s.txns && Runs(s.txns[t]) && ChoiceOk(s.exam, s.txns[t], pick)
      && Unblocked(s, NextOf(cfg, s.exam, s.clock, s.txns[t], pick))
    case Abort(t) => t in s.txns && Runs(s.txns[t])
    case Notify(t) => t in s.txns && ToAnnounce(s.txns[t])
  }

  function Apply(cfg: Config, s: State, a: Action): State
    requires Enabled(cfg, s, a)
  {
    match a
    case Tick(ticks) => s.(clock := s.clock + ticks)
    case Open(t, call) => s.(txns := s.txns[t := Txn(call, Waiting, s.clock)])
    case Advance(t, pick) => Move(s, t, NextOf(cfg, s.exam, s.clock, s.txns[t], pick))
    case Abort(t) => Move(s, t, End(s.exam, Failed(DatabaseFailure)))
    case Notify(t) =>
      s.(txns := s.txns[t := s.txns[t].(phase := Closed(s.txns[t].phase.outcome, true))],
         notices := s.notices + [s.txns[t].call.sessionID])
  }

  // ---- the invariant ----

  function DeliveryHeld(txn: Txn): Option<string> {
    if txn.call.StartCall? && !txn.phase.Waiting? && !txn.phase.Closed? then Some(DeliveryOf(txn.call)) else None
  }

  function SessionHeld(txn: Txn): Option<string> {
    if txn.phase.Waiting? || txn.phase.Closed? then None
    else match txn.call
      case StartCall(_, _) => if txn.phase.Beginning? then Some(txn.phase.id) else None
      case SaveCall(s, _, _, _) => Some(s)
      case SubmitCall(s, _) => Some(s)
  }

  // A lock belongs to the one transaction whose phase says that it holds it.
  ghost predicate LocksOk(s: State) {
    DeliveryLocksOk(s) && SessionLocksOk(s)
  }

  ghost predicate DeliveryLocksOk(s: State) {
    && (forall t | t in s.txns && DeliveryHeld(s.txns[t]).Some? ::
          DeliveryHeld(s.txns[t]).value in s.deliveryLocks && s.deliveryLocks[DeliveryHeld(s.txns[t]).value] == t)
    && (forall d | d in s.deliveryLocks ::
          s.deliveryLocks[d] in s.txns && DeliveryHeld(s.txns[s.deliveryLocks[d]]) == Some(d))
  }

  ghost predicate SessionLocksOk(s: State) {
    && (forall t | t in s.txns && SessionHeld(s.txns[t]).Some? ::
          SessionHeld(s.txns[t]).value in s.sessionLocks && s.sessionLocks[SessionHeld(s.txns[t]).value] == t)
    && (forall x | x in s.sessionLocks ::
          s.sessionLocks[x] in s.txns && SessionHeld(s.txns[s.sessionLocks[x]]) == Some(x))
  }

  // What a StartSession transaction may still rely on.
  ghost predicate StartOk(cfg: Config, e: Exam, idOwner: map<string, nat>, t: nat, txn: Txn)
    requires txn.call.StartCall?
  {
    var d, u := DeliveryOf(txn.call), UserOf(txn.call);
    match txn.phase
    case Waiting => true
    case DeliveryLocked => d != "" && u != "" && d in cfg.deliveries
    case Eligible(now) => StartRefusal(cfg, d, u, now).None?
    case NoneOpen(now) => StartRefusal(cfg, d, u, now).None? && OpenSessions(e, d, u) == {}
    case Counted(now, attempts) =>
      && StartRefusal(cfg, d, u, now).None? && OpenSessions(e, d, u) == {}
      && attempts == |SessionsOf(e, d, u)| && attempts < AttemptLimit(cfg, d)
    case Inserting(id, row) =>
      && row.startedAt.Some? && StartRefusal(cfg, d, u, row.startedAt.value).None? && OpenSessions(e, d, u) == {}
      && |SessionsOf(e, d, u)| < AttemptLimit(cfg, d)
      && row == NewSession(d, u, |SessionsOf(e, d, u)| + 1, row.startedAt.value)
      && id !in e.sessions && id in idOwner && idOwner[id] == t
    case Found(now, id, row) =>
      && StartRefusal(cfg, d, u, now).None? && LatestOpen(e, d, u, id)
      && e.sessions[id] == row && row.status == NotStarted
    case Beginning(id, row) =>
      && row.startedAt.Some? && StartRefusal(cfg, d, u, row.startedAt.value).None? && LatestOpen(e, d, u, id)
      && e.sessions[id].status == NotStarted && row == Begun(e.sessions[id], row.startedAt.value)
    case Resuming(_, _) => true
    case Closed(outcome, _) => !outcome.Submitted?
    case _ => false
  }

  ghost predicate SaveOk(cfg: Config, e: Exam, txn: Txn)
    requires txn.call.SaveCall?
  {
    match txn.phase
    case Waiting => true
    case SessionLocked(session) => Owned(e, txn.call.sessionID, txn.call.userID)
        && e.sessions[txn.call.sessionID] == session
    case InTime(session, checkedAt) =>
      && Owned(e, txn.call.sessionID, txn.call.userID) && e.sessions[txn.call.sessionID] == session
      && session.status == InProgress && session.startedAt.Some? && !Expired(cfg, session, checkedAt)
    case ResponseWritten(checkedAt, response) =>
      && SaveRefusal(cfg, e, txn.call, checkedAt).None?
      && response == Response(txn.call.data, response.respondedAt, 0.0, false)
    case Closed(outcome, _) => !outcome.Submitted?
    case _ => false
  }

  // Part of the rows is marked, the rest still to do, and the total is that of the marked part.
  ghost predicate MarkingOk(
    cfg: Config, deliveryID: string, rows: map<string, Response>,
    todo: map<string, Response>, marked: map<string, Response>, total: real)
  {
    && todo.Keys !! marked.Keys && todo.Keys + marked.Keys == rows.Keys
    && (forall k | k in todo :: todo[k] == rows[k])
    && (forall k | k in marked :: Scorable(cfg, deliveryID, k) && marked[k] == Marked(cfg, deliveryID, k, rows[k]))
    && total == Sum(Scores(marked))
  }

  ghost predicate SubmitOk(cfg: Config, e: Exam, completedBy: map<string, nat>, t: nat, txn: Txn)
    requires txn.call.SubmitCall?
  {
    var x := txn.call.sessionID;
    match txn.phase
    case Waiting => true
    case SubmitLocked(session) => Owned(e, x, txn.call.userID) && e.sessions[x] == session
    case Marking(session, todo, marked, total) =>
      && Owned(e, x, txn.call.userID) && e.sessions[x] == session && session.status == InProgress
      && MarkingOk(cfg, session.deliveryID, Rows(e, x), todo, marked, total)
    case Completing(row, marked) =>
      && Owned(e, x, txn.call.userID) && e.sessions[x].status == InProgress
      && AllScorable(cfg, e.sessions[x].deliveryID, Rows(e, x))
      && marked == MarkedRows(cfg, e.sessions[x].deliveryID, Rows(e, x))
      && row.finishedAt.Some? && row == Finished(e.sessions[x], Sum(Scores(marked)), row.finishedAt.value)
    case Resubmitted(session, rows) => Owned(e, x, txn.call.userID) && StoredResult(e, x, session, rows)
    case Closed(outcome, notified) =>
      && (notified ==> outcome.Submitted? && outcome.completedHere)
      && (outcome.Submitted? ==> StoredResult(e, x, outcome.submitted, outcome.rows))
      && (outcome.Submitted? && outcome.completedHere ==> x in completedBy && completedBy[x] == t)
    case _ => false
  }

  // The session is completed, and the tables hold exactly this row and these responses.
  predicate StoredResult(e: Exam, sessionID: string, session: Session, rows: map<string, Response>) {
    && sessionID in e.sessions && e.sessions[sessionID] == session && session.status == Completed
    && Rows(e, sessionID) == rows
  }

  ghost predicate TxnOk(
      cfg: Config, e: Exam, idOwner: map<string, nat>, completedBy: map<string, nat>, t: nat, txn: Txn) {
    match txn.call
    case StartCall(_, _) => StartOk(cfg, e, idOwner, t, txn)
    case SaveCall(_, _, _, _) => SaveOk(cfg, e, txn)
    case SubmitCall(_, _) => SubmitOk(cfg, e, completedBy, t, txn)
  }

  // A session is announced only by the transaction that completed it, once.
  predicate Announced(s: State, x: string) {
    && x in s.completedBy && s.completedBy[x] in s.txns
    && s.txns[s.completedBy[x]].phase.Closed? && s.txns[s.completedBy[x]].phase.notified
  }

  ghost predicate NoticesOk(s: State) {
    && (forall i, j | 0 <= i < j < |s.notices| :: s.notices[i] != s.notices[j])
    && (forall x | x in s.notices :: Announced(s, x))
    && (forall x | x in s.completedBy :: x in s.exam.sessions && s.exam.sessions[x].status == Completed)
  }

  ghost predicate Inv(cfg: Config, s: State) {
    && TablesOk(cfg, s.exam)
    && s.exam.sessions.Keys <= s.idOwner.Keys
    && LocksOk(s)
    && (forall t | t in s.txns :: TxnOk(cfg, s.exam, s.idOwner, s.completedBy, t, s.txns[t]))
    && NoticesOk(s)
  }

  // Any consistent tables to begin with, and nobody at work.
  ghost predicate Init(cfg: Config, s: State) {
    && TablesOk(cfg, s.exam) && s.exam.sessions.Keys <= s.idOwner.Keys
    && s.txns == map[] && s.deliveryLocks == map[] && s.sessionLocks == map[] && s.completedBy == map[]
        && s.notices == []
  }
}
