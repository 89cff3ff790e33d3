/**
 The session calls as the statements of one transaction after another, which is how they run on
 SQLite, where the connection pool holds one connection. Each method is proved against the same
 atomic specification that the concurrent transactions refine.
 */
module SessionService {
  import opened Wrappers
  import opened Text
  import opened Scoring
  import opened Assessment
  import opened SessionSpec
  import opened SessionProtocol
  import opened SessionInvariant
  import opened SessionLinearization

  // The statements of the three calls, by what they are for.
  datatype Statement =
    | Lock | Groups | FindOpen | CountAttempts | TimeLimit | FindItem(itemID: string) | Preload
    | Mark(itemID: string) | Write | ReadBack | Commit

  // A call is one atomic call, or fails with the database and leaves the tables alone.
  ghost predicate StepOrFailure(cfg: Config, e: Exam, ev: Event, e': Exam, mayFail: bool) {
    if ev.outcome == Failed(DatabaseFailure) then e' == e && mayFail else Step(cfg, e, ev, e')
  }

  lemma NothingMarkedYet(cfg: Config, deliveryID: string, rows: map<string, Response>)
    ensures MarkingOk(cfg, deliveryID, rows, rows, map[], 0.0)
  {
    assert Scores(map[]) == map[];
  }

  // A row that cannot be marked keeps the session from being scored.
  lemma RowFails(cfg: Config, deliveryID: string, rows: map<string, Response>, k: string, error: Error)
    requires k in rows && !Scorable(cfg, deliveryID, k)
    requires error == if FindTestItem(cfg, deliveryID, k).None? then ItemNotInDelivery else InvalidScoring
    ensures !AllScorable(cfg, deliveryID, rows) && ScoringFailure(cfg, deliveryID, rows, error)
  {
  }

  class Service {
    const cfg: Config
    var sessions: map<string, Session>
    var responses: map<string, map<string, Response>>
    var notices: seq<string>        // completions announced to event bus, webhooks and LMS
    ghost var log: map<string, seq<Answer>>

    ghost function Tables(): Exam
      reads this
    {
      Exam(sessions, responses, log)
    }

    constructor (cfg: Config)
      ensures this.cfg == cfg && Tables() == Exam(map[], map[], map[]) && notices == []
    {
      this.cfg := cfg;
      sessions, responses, notices, log := map[], map[], [], map[];
    }

    // `freshID` is the identifier drawn for a new session, and `faults` are the statements that fail.
    // What a transaction writes, it writes at its commit.
    method StartSession(deliveryID: string, userID: string, now: int, freshID: string, faults: set<Statement>)
      returns (outcome: Outcome)
      modifies this`sessions, this`log
      ensures StepOrFailure(
                cfg, old(Tables()), Event(StartCall(deliveryID, userID), now, now, outcome), Tables(),
                faults != {} || freshID in old(sessions))
    {
      var d, u := TrimSpace(deliveryID), TrimSpace(userID);
      if d == "" || u == "" {
        return Failed(DeliveryNotFound);
      }
      if Lock in faults {
        return Failed(DatabaseFailure);
      }
      if d !in cfg.deliveries {
        return Failed(DeliveryNotFound);
      }
      if !WindowOpen(cfg.deliveries[d], now) {
        return Failed(DeliveryClosed);
      }
      if Groups in faults {
        return Failed(DatabaseFailure);
      }
      if !Admitted(cfg, d, u) {
        return Failed(DeliveryForbidden);
      }
      if FindOpen in faults {
        return Failed(DatabaseFailure);
      }
      var open := set s | s in sessions && Of(sessions[s], d, u) && sessions[s].status != Completed;
      assert open == OpenSessions(Tables(), d, u);
      if open != {} {
        outcome := Resume(open, now, faults);
        return;
      }
      if CountAttempts in faults {
        return Failed(DatabaseFailure);
      }
      var attempts := |set s | s in sessions && Of(sessions[s], d, u)|;
      assert attempts == |SessionsOf(Tables(), d, u)|;
      var maxAttempts := cfg.deliveries[d].maxAttempts;
      if maxAttempts <= 0 {
        maxAttempts := 1;
      }
      if attempts >= maxAttempts {
        return Failed(MaxAttempts);
      }
      var session := Session(d, u, attempts + 1, InProgress, 0, 0.0, Some(now), None);
      if Write in faults || freshID in sessions || Commit in faults {
        return Failed(DatabaseFailure);
      }
      sessions := sessions[freshID := session];
      log := log[freshID := []];
      return Started(freshID, session);
    }

    // The latest of the open sessions, started when it was not.
    method Resume(open: set<string>, now: int, faults: set<Statement>) returns (outcome: Outcome)
      requires open != {} && forall s | s in open :: s in sessions
      modifies this`sessions
      ensures outcome == Failed(DatabaseFailure) ==> sessions == old(sessions) && faults != {}
      ensures outcome != Failed(DatabaseFailure) ==>
                && outcome.Started? && outcome.sessionID in open
                && (forall s | s in open :: old(sessions)[s].attempt <= old(sessions)[outcome.sessionID].attempt)
                && var found := old(sessions)[outcome.sessionID];
                   if found.status == NotStarted then
                     outcome.session == Begun(found, now)
                         && sessions == old(sessions)[outcome.sessionID := outcome.session]
                   else outcome.session == found && sessions == old(sessions)
    {
      ghost var existing := LatestOpenExists(Tables(), open);
      var latest :| latest in open && forall s | s in open :: sessions[s].attempt <= sessions[latest].attempt;
      var session := sessions[latest];
      if session.status == NotStarted {
        session := session.(status := InProgress, startedAt := Some(now));
        if Write in faults {
          return Failed(DatabaseFailure);
        }
      }
      if Commit in faults {
        return Failed(DatabaseFailure);
      }
      if sessions[latest].status == NotStarted {
        sessions := sessions[latest := session];
      }
      return Started(latest, session);
    }

    // The limit is checked at `checkedAt`, the answer written at `now`, and the row read back.
    method SaveResponse(
      sessionID: string, userID: string, itemID: string, responseData: string, checkedAt: int, now: int,
      faults: set<Statement>) returns (outcome: Outcome)
      modifies this`responses, this`log
      ensures StepOrFailure(
                cfg, old(Tables()),
                Event(SaveCall(sessionID, userID, itemID, responseData), checkedAt, now, outcome), Tables(),
                    faults != {})
    {
      if Lock in faults {
        return Failed(DatabaseFailure);
      }
      if sessionID !in sessions || sessions[sessionID].userID != userID {
        return Failed(SessionNotFound);
      }
      var session := sessions[sessionID];
      if session.status == Completed {
        return Failed(SessionCompleted);
      }
      if session.status != InProgress || session.startedAt.None? {
        return Failed(SessionNotActive);
      }
      if TimeLimit in faults {
        return Failed(DatabaseFailure);
      }
      var limit := SessionSpec.TimeLimit(cfg, session.deliveryID);
      if limit > 0 && checkedAt > session.startedAt.value + limit * SECOND {
        return Failed(SessionExpired);
      }
      if FindItem(itemID) in faults {
        return Failed(DatabaseFailure);
      }
      if FindTestItem(cfg, session.deliveryID, itemID).None? {
        return Failed(ItemNotInDelivery);
      }
      if Write in faults || ReadBack in faults || Commit in faults {
        return Failed(DatabaseFailure);
      }
      var row := Response(responseData, now, 0.0, false);
      var rows := if sessionID in responses then responses[sessionID] else map[];
      responses := responses[sessionID := rows[itemID := row]];
      log := log[sessionID := History(Tables(), sessionID) + [Answer(itemID, responseData)]];
      return Saved(row);
    }

    method SubmitSession(sessionID: string, userID: string, now: int, faults: set<Statement>) returns (outcome: Outcome)
      modifies this`sessions, this`responses, this`notices
      ensures StepOrFailure(
                cfg, old(Tables()), Event(SubmitCall(sessionID, userID), now, now, outcome), Tables(), faults != {})
      ensures notices == old(notices) + if CompletesHere(outcome) then [sessionID] else []
    {
      if Lock in faults {
        return Failed(DatabaseFailure);
      }
      if sessionID !in sessions || sessions[sessionID].userID != userID {
        return Failed(SessionNotFound);
      }
      if Preload in faults {
        return Failed(DatabaseFailure);
      }
      var session := sessions[sessionID];
      var rows := if sessionID in responses then responses[sessionID] else map[];
      if session.status == Completed {
        return if Commit in faults then Failed(DatabaseFailure) else Submitted(session, rows, false);
      }
      if session.status != InProgress {
        return Failed(SessionNotActive);
      }
      var failure, marked, total := MarkRows(session.deliveryID, rows, faults);
      if failure.Some? {
        return Failed(failure.value);
      }
      if Write in faults || ReadBack in faults || Commit in faults {
        return Failed(DatabaseFailure);
      }
      var finished := session.(
        status := Completed, totalScore := total, finishedAt := Some(now), timeSpent := Elapsed(session, now));
      sessions := sessions[sessionID := finished];
      responses := responses[sessionID := marked];
      notices := notices + [sessionID];
      return Submitted(finished, marked, true);
    }

    // One turn of the scoring loop.
    method MarkRow(deliveryID: string, itemID: string, row: Response, faults: set<Statement>)
      returns (result: Result<Response, Error>)
      ensures result.Success? ==>
          Scorable(cfg, deliveryID, itemID) && result.value == Marked(cfg, deliveryID, itemID, row)
      ensures result.Failure? ==>
                if result.error == DatabaseFailure then FindItem(itemID) in faults || Mark(itemID) in faults
                else
                  && !Scorable(cfg, deliveryID, itemID)
                  && result.error == if FindTestItem(cfg, deliveryID, itemID).None? then ItemNotInDelivery
                      else InvalidScoring
    {
      if FindItem(itemID) in faults {
        return Failure(DatabaseFailure);
      }
      var found := FindTestItem(cfg, deliveryID, itemID);
      if found.None? {
        return Failure(ItemNotInDelivery);
      }
      var testItem := found.value;
      var item := ItemOf(cfg, testItem);
      if testItem.weight <= 0.0 || testItem.weight > SCORE_CEILING
         || item.maxScore <= 0.0 || item.maxScore > SCORE_CEILING
      {
        return Failure(InvalidScoring);
      }
      var score, isCorrect := ScoreItem(cfg.fold, Some(item), row.data);
      score := score * testItem.weight;
      if Mark(itemID) in faults {
        return Failure(DatabaseFailure);
      }
      return Success(row.(score := score, correct := isCorrect));
    }

    // The scoring loop of a submission; a failing row leaves the loop at once.
    method MarkRows(deliveryID: string, rows: map<string, Response>, faults: set<Statement>)
      returns (failure: Option<Error>, marked: map<string, Response>, totalScore: real)
      ensures failure.Some? ==>
                if failure.value == DatabaseFailure then faults != {}
                else !AllScorable(cfg, deliveryID, rows) && ScoringFailure(cfg, deliveryID, rows, failure.value)
      ensures failure.None? ==>
                && AllScorable(cfg, deliveryID, rows) && marked == MarkedRows(cfg, deliveryID, rows)
                && totalScore == Sum(Scores(marked))
    {
      var todo := rows;
      marked, totalScore := map[], 0.0;
      NothingMarkedYet(cfg, deliveryID, rows);
      while todo != map[]
        invariant MarkingOk(cfg, deliveryID, rows, todo, marked, totalScore)
        decreases |todo|
      {
        var k :| k in todo;
        var result := MarkRow(deliveryID, k, todo[k], faults);
        if result.Failure? {
          if result.error != DatabaseFailure {
            RowFails(cfg, deliveryID, rows, k, result.error);
          }
          return Some(result.error), marked, totalScore;
        }
        var row := result.value;
        MarkOneRow(cfg, deliveryID, rows, todo, marked, totalScore, k, row);
        todo, marked, totalScore := todo - {k}, marked[k := row], totalScore + row.score;
      }
      AllRowsMarked(cfg, deliveryID, rows, marked, totalScore);
      return None, marked, totalScore;
    }
  }
}
