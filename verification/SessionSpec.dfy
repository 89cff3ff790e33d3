/**
 The atomic specification of the three session calls. A call takes effect at one instant on the
 committed tables; `log` remembers the accepted saves of every session, in order.
 */
module SessionSpec {
  import opened Wrappers
  import opened Text
  import opened Assessment

  datatype Status = NotStarted | InProgress | Paused | Completed

  datatype Session = Session(
    deliveryID: string, userID: string, attempt: int, status: Status,
    timeSpent: int, totalScore: real, startedAt: Option<int>, finishedAt: Option<int>)

  datatype Response = Response(data: string, respondedAt: int, score: real, correct: bool)

  datatype Answer = Answer(itemID: string, data: string)

  // Responses are keyed by session and then by item, which is the table's unique key.
  datatype Exam = Exam(
    sessions: map<string, Session>,
    responses: map<string, map<string, Response>>,
    log: map<string, seq<Answer>>)

  datatype Error =
    | DeliveryNotFound | DeliveryClosed | DeliveryForbidden | MaxAttempts
    | SessionNotFound | SessionCompleted | SessionNotActive | SessionExpired
    | ItemNotInDelivery | InvalidScoring | DatabaseFailure

  datatype Call =
    | StartCall(deliveryID: string, userID: string)
    | SaveCall(sessionID: string, userID: string, itemID: string, data: string)
    | SubmitCall(sessionID: string, userID: string)

  datatype Outcome =
    | Started(sessionID: string, session: Session)
    | Saved(response: Response)
    | Submitted(submitted: Session, rows: map<string, Response>, completedHere: bool)
    | Failed(error: Error)

  // A call with the clock samples it took: one for the time limit, one for the times it records.
  datatype Event = Event(call: Call, checkedAt: int, now: int, outcome: Outcome)

  // ---- reading the tables ----

  function Rows(e: Exam, sessionID: string): map<string, Response> {
    if sessionID in e.responses then e.responses[sessionID] else map[]
  }

  predicate Owned(e: Exam, sessionID: string, userID: string) {
    sessionID in e.sessions && e.sessions[sessionID].userID == userID
  }

  predicate Of(session: Session, deliveryID: string, userID: string) {
    session.deliveryID == deliveryID && session.userID == userID
  }

  function SessionsOf(e: Exam, deliveryID: string, userID: string): set<string> {
    set s | s in e.sessions && Of(e.sessions[s], deliveryID, userID)
  }

  function OpenSessions(e: Exam, deliveryID: string, userID: string): set<string> {
    set s | s in e.sessions && Of(e.sessions[s], deliveryID, userID) && e.sessions[s].status != Completed
  }

  predicate LatestOpen(e: Exam, deliveryID: string, userID: string, sessionID: string) {
    && sessionID in OpenSessions(e, deliveryID, userID)
    && forall s | s in OpenSessions(e, deliveryID, userID) :: e.sessions[s].attempt <= e.sessions[sessionID].attempt
  }

  // ---- conditions of the calls ----

  predicate WindowOpen(d: Delivery, now: int) {
    && d.isActive
    && (d.startTime.Some? ==> d.startTime.value <= now)
    && (d.endTime.Some? ==> now <= d.endTime.value)
  }

  predicate Admitted(cfg: Config, deliveryID: string, userID: string) {
    var groups := set p | p in cfg.deliveryGroups && p.0 == deliveryID;
    groups != {} ==> exists p | p in groups :: (userID, p.1) in cfg.userGroups
  }

  function AttemptLimit(cfg: Config, deliveryID: string): int {
    if deliveryID in cfg.deliveries && cfg.deliveries[deliveryID].maxAttempts > 0
    then cfg.deliveries[deliveryID].maxAttempts else 1
  }

  function TimeLimit(cfg: Config, deliveryID: string): int {
    if deliveryID in cfg.deliveries && cfg.deliveries[deliveryID].testID in cfg.timeLimits
    then cfg.timeLimits[cfg.deliveries[deliveryID].testID] else 0
  }

  predicate Expired(cfg: Config, session: Session, now: int) {
    var limit := TimeLimit(cfg, session.deliveryID);
    session.startedAt.Some? && limit > 0 && now > session.startedAt.value + limit * SECOND
  }

  // Why StartSession refuses before it looks at any session; None when it does not.
  function StartRefusal(cfg: Config, deliveryID: string, userID: string, now: int): Option<Error> {
    if deliveryID == "" || userID == "" || deliveryID !in cfg.deliveries then Some(DeliveryNotFound)
    else if !WindowOpen(cfg.deliveries[deliveryID], now) then Some(DeliveryClosed)
    else if !Admitted(cfg, deliveryID, userID) then Some(DeliveryForbidden)
    else None
  }

  // Why SaveResponse refuses; None when it does not.
  function SaveRefusal(cfg: Config, e: Exam, call: Call, checkedAt: int): Option<Error>
    requires call.SaveCall?
  {
    if !Owned(e, call.sessionID, call.userID) then Some(SessionNotFound)
    else
      var session := e.sessions[call.sessionID];
      if session.status == Completed then Some(SessionCompleted)
      else if session.status != InProgress || session.startedAt.None? then Some(SessionNotActive)
      else if Expired(cfg, session, checkedAt) then Some(SessionExpired)
      else if FindTestItem(cfg, session.deliveryID, call.itemID).None? then Some(ItemNotInDelivery)
      else None
  }

  // ---- what the calls write ----

  function NewSession(deliveryID: string, userID: string, attempt: int, now: int): Session {
    Session(deliveryID, userID, attempt, InProgress, 0, 0.0, Some(now), None)
  }

  function Begun(session: Session, now: int): Session {
    session.(status := InProgress, startedAt := Some(now))
  }

  function PutSession(e: Exam, sessionID: string, session: Session): Exam {
    e.(sessions := e.sessions[sessionID := session])
  }

  function AddSession(e: Exam, sessionID: string, session: Session): Exam {
    e.(sessions := e.sessions[sessionID := session], log := e.log[sessionID := []])
  }

  function PutResponse(e: Exam, sessionID: string, itemID: string, row: Response): Exam {
    e.(responses := e.responses[sessionID := Rows(e, sessionID)[itemID := row]],
       log := e.log[sessionID := History(e, sessionID) + [Answer(itemID, row.data)]])
  }

  function History(e: Exam, sessionID: string): seq<Answer> {
    if sessionID in e.log then e.log[sessionID] else []
  }

  predicate AllScorable(cfg: Config, deliveryID: string, rows: map<string, Response>) {
    forall k | k in rows :: Scorable(cfg, deliveryID, k)
  }

  function Marked(cfg: Config, deliveryID: string, itemID: string, row: Response): Response
    requires Scorable(cfg, deliveryID, itemID)
  {
    row.(
      score := Awarded(cfg, deliveryID, itemID, row.data),
      correct := AnswerCorrect(cfg, deliveryID, itemID, row.data))
  }

  function MarkedRows(cfg: Config, deliveryID: string, rows: map<string, Response>): map<string, Response>
    requires AllScorable(cfg, deliveryID, rows)
  {
    map k | k in rows :: Marked(cfg, deliveryID, k, rows[k])
  }

  function Scores(rows: map<string, Response>): map<string, real> {
    map k | k in rows :: rows[k].score
  }

  function Elapsed(session: Session, now: int): int {
    if session.startedAt.None? then session.timeSpent
    else if now < session.startedAt.value then 0
    else (now - session.startedAt.value) / SECOND
  }

  function Finished(session: Session, total: real, now: int): Session {
    session.(status := Completed, totalScore := total, finishedAt := Some(now), timeSpent := Elapsed(session, now))
  }

  function CompleteSession(e: Exam, sessionID: string, session: Session, rows: map<string, Response>): Exam {
    e.(sessions := e.sessions[sessionID := session], responses := e.responses[sessionID := rows])
  }

  // ---- the atomic calls ----

  ghost predicate StartStep(cfg: Config, e: Exam, ev: Event, e': Exam)
    requires ev.call.StartCall?
  {
    var d, u := TrimSpace(ev.call.deliveryID), TrimSpace(ev.call.userID);
    var refusal := StartRefusal(cfg, d, u, ev.now);
    if refusal.Some? then
      ev.outcome == Failed(refusal.value) && e' == e
    else if OpenSessions(e, d, u) != {} then
      && ev.outcome.Started? && LatestOpen(e, d, u, ev.outcome.sessionID)
      && var found := e.sessions[ev.outcome.sessionID];
      if found.status == NotStarted then
        ev.outcome.session == Begun(found, ev.now) && e' == PutSession(e, ev.outcome.sessionID, ev.outcome.session)
      else
        ev.outcome.session == found && e' == e
    else if |SessionsOf(e, d, u)| >= AttemptLimit(cfg, d) then
      ev.outcome == Failed(MaxAttempts) && e' == e
    else
      && ev.outcome.Started? && ev.outcome.sessionID !in e.sessions
      && ev.outcome.session == NewSession(d, u, |SessionsOf(e, d, u)| + 1, ev.now)
      && e' == AddSession(e, ev.outcome.sessionID, ev.outcome.session)
  }

  ghost predicate SaveStep(cfg: Config, e: Exam, ev: Event, e': Exam)
    requires ev.call.SaveCall?
  {
    var refusal := SaveRefusal(cfg, e, ev.call, ev.checkedAt);
    if refusal.Some? then
      ev.outcome == Failed(refusal.value) && e' == e
    else
      && ev.outcome == Saved(Response(ev.call.data, ev.now, 0.0, false))
      && e' == PutResponse(e, ev.call.sessionID, ev.call.itemID, ev.outcome.response)
  }

  // The order in which a failing submission meets its rows is not fixed.
  ghost predicate ScoringFailure(cfg: Config, deliveryID: string, rows: map<string, Response>, error: Error) {
    || (error == ItemNotInDelivery && exists k | k in rows :: FindTestItem(cfg, deliveryID, k).None?)
    || (error == InvalidScoring
        && exists k | k in rows :: FindTestItem(cfg, deliveryID, k).Some? && !Scorable(cfg, deliveryID, k))
  }

  ghost predicate SubmitStep(cfg: Config, e: Exam, ev: Event, e': Exam)
    requires ev.call.SubmitCall?
  {
    var s := ev.call.sessionID;
    if !Owned(e, s, ev.call.userID) then
      ev.outcome == Failed(SessionNotFound) && e' == e
    else
      var session, rows := e.sessions[s], Rows(e, s);
      if session.status == Completed then
        ev.outcome == Submitted(session, rows, false) && e' == e
      else if session.status != InProgress then
        ev.outcome == Failed(SessionNotActive) && e' == e
      else if !AllScorable(cfg, session.deliveryID, rows) then
        ev.outcome.Failed? && ScoringFailure(cfg, session.deliveryID, rows, ev.outcome.error) && e' == e
      else
        var marked := MarkedRows(cfg, session.deliveryID, rows);
        var finished := Finished(session, Sum(Scores(marked)), ev.now);
        ev.outcome == Submitted(finished, marked, true) && e' == CompleteSession(e, s, finished, marked)
  }

  ghost predicate Step(cfg: Config, e: Exam, ev: Event, e': Exam) {
    match ev.call
    case StartCall(_, _) => StartStep(cfg, e, ev, e')
    case SaveCall(_, _, _, _) => SaveStep(cfg, e, ev, e')
    case SubmitCall(_, _) => SubmitStep(cfg, e, ev, e')
  }

  // ---- the invariant of the tables ----

  function Replay(log: seq<Answer>): map<string, string> {
    if log == [] then map[] else Replay(log[..|log| - 1])[log[|log| - 1].itemID := log[|log| - 1].data]
  }

  function Data(rows: map<string, Response>): map<string, string> {
    map k | k in rows :: rows[k].data
  }

  // The n attempts of a user at a delivery bear different numbers from 1..n, n is within the limit,
  // and at most one of them is not completed.
  ghost predicate AttemptsOk(cfg: Config, e: Exam, d: string, u: string) {
    var mine := SessionsOf(e, d, u);
    && (forall s | s in mine :: 1 <= e.sessions[s].attempt <= |mine|)
    && (forall s, t | s in mine && t in mine && e.sessions[s].attempt == e.sessions[t].attempt :: s == t)
    && |mine| <= AttemptLimit(cfg, d)
    && (forall s, t | s in OpenSessions(e, d, u) && t in OpenSessions(e, d, u) :: s == t)
  }

  ghost predicate RowsOk(cfg: Config, session: Session, rows: map<string, Response>, log: seq<Answer>) {
    && Data(rows) == Replay(log)
    && (forall k | k in rows :: FindTestItem(cfg, session.deliveryID, k).Some?)
    && (session.status == NotStarted ==> session.startedAt.None?)
    && if session.status != Completed then
         forall k | k in rows :: rows[k].score == 0.0 && !rows[k].correct
       else
         && AllScorable(cfg, session.deliveryID, rows)
         && (forall k | k in rows :: rows[k] == Marked(cfg, session.deliveryID, k, rows[k]))
         && session.totalScore == Sum(Scores(rows))
  }

  ghost predicate NumberingOk(cfg: Config, e: Exam) {
    forall d, u :: AttemptsOk(cfg, e, d, u)
  }

  ghost predicate AnswersOk(cfg: Config, e: Exam) {
    && e.responses.Keys <= e.sessions.Keys == e.log.Keys
    && forall s | s in e.sessions :: RowsOk(cfg, e.sessions[s], Rows(e, s), e.log[s])
  }

  ghost predicate TablesOk(cfg: Config, e: Exam) {
    NumberingOk(cfg, e) && AnswersOk(cfg, e)
  }
}
