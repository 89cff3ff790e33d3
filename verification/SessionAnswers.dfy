/**
 When each atomic session call gives which answer, and what it writes, told from the rows of the
 configuration: windows, groups, limits, weights and times.
 */
module SessionAnswers {
  import opened Wrappers
  import opened Text
  import opened Assessment
  import opened SessionSpec
  import opened SessionLaws

  // ---- starting a session ----

  // Neither switched off, nor before its start, nor after its end.
  predicate TakesPlace(d: Delivery, now: int) {
    && d.isActive
    && !(d.startTime.Some? && now < d.startTime.value)
    && !(d.endTime.Some? && now > d.endTime.value)
  }

  // The delivery is for everybody, or for a group that the user is in.
  ghost predicate IsFor(cfg: Config, d: string, u: string) {
    (exists g :: (d, g) in cfg.deliveryGroups) ==> exists g :: (d, g) in cfg.deliveryGroups && (u, g) in cfg.userGroups
  }

  lemma AdmittedIsFor(cfg: Config, d: string, u: string)
    ensures Admitted(cfg, d, u) <==> IsFor(cfg, d, u)
  {
    var groups := set p | p in cfg.deliveryGroups && p.0 == d;
    if g :| (d, g) in cfg.deliveryGroups {
      assert (d, g) in groups;
    }
    if p :| p in groups && (u, p.1) in cfg.userGroups {
      assert p == (d, p.1);
    }
    if g :| (d, g) in cfg.deliveryGroups && (u, g) in cfg.userGroups {
      assert (d, g) in groups;
    }
    if p :| p in groups {
      assert p == (d, p.1);
    }
  }

  function Attempts(e: Exam, d: string, u: string): set<string> {
    set x | x in e.sessions && e.sessions[x].deliveryID == d && e.sessions[x].userID == u
  }

  ghost predicate AllCompleted(e: Exam, d: string, u: string) {
    forall x | x in Attempts(e, d, u) :: e.sessions[x].status == Completed
  }

  function Allowed(d: Delivery): int {
    if d.maxAttempts <= 0 then 1 else d.maxAttempts
  }

  /** Which answer StartSession gives at the time `ev.now`. */
  lemma StartAnswers(cfg: Config, e: Exam, ev: Event, e': Exam)
    requires ev.call.StartCall? && Step(cfg, e, ev, e')
    ensures var d, u := TrimSpace(ev.call.deliveryID), TrimSpace(ev.call.userID);
            && (ev.outcome == Failed(DeliveryNotFound) <==> d == "" || u == "" || d !in cfg.deliveries)
            && (d != "" && u != "" && d in cfg.deliveries ==>
                  var there, full := TakesPlace(cfg.deliveries[d], ev.now),
                      AllCompleted(e, d, u) && |Attempts(e, d, u)| >= Allowed(cfg.deliveries[d]);
                  && (ev.outcome == Failed(DeliveryClosed) <==> !there)
                  && (ev.outcome == Failed(DeliveryForbidden) <==> there && !IsFor(cfg, d, u))
                  && (ev.outcome == Failed(MaxAttempts) <==> there && IsFor(cfg, d, u) && full)
                  && (ev.outcome.Started? <==> there && IsFor(cfg, d, u) && !full))
            && (ev.outcome.Failed? ==> e' == e)
  {
    var d, u := TrimSpace(ev.call.deliveryID), TrimSpace(ev.call.userID);
    AdmittedIsFor(cfg, d, u);
    AttemptsAreSessions(e, d, u);
  }

  lemma AttemptsAreSessions(e: Exam, d: string, u: string)
    ensures Attempts(e, d, u) == SessionsOf(e, d, u)
    ensures forall y | y in Attempts(e, d, u) && e.sessions[y].status != Completed :: y in OpenSessions(e, d, u)
    ensures AllCompleted(e, d, u) <==> OpenSessions(e, d, u) == {}
  {
    if y :| y in OpenSessions(e, d, u) {
      assert y in Attempts(e, d, u);
    }
  }

  // The session that a start returns: the latest open one, begun when it was not, or a new one.
  ghost predicate Given(e: Exam, d: string, u: string, now: int, x: string, row: Session, e': Exam) {
    if x in e.sessions then
      && x in Attempts(e, d, u) && e.sessions[x].status != Completed
      && (forall y | y in Attempts(e, d, u) && e.sessions[y].status != Completed ::
            e.sessions[y].attempt <= e.sessions[x].attempt)
      && row == (if e.sessions[x].status == NotStarted
                 then e.sessions[x].(status := InProgress, startedAt := Some(now)) else e.sessions[x])
      && e'.sessions == e.sessions[x := row] && e'.responses == e.responses
    else
      && AllCompleted(e, d, u)
      && row == Session(d, u, |Attempts(e, d, u)| + 1, InProgress, 0, 0.0, Some(now), None)
      && e'.sessions == e.sessions[x := row] && e'.responses == e.responses
  }

  lemma StartGives(cfg: Config, e: Exam, ev: Event, e': Exam)
    requires ev.call.StartCall? && Step(cfg, e, ev, e') && ev.outcome.Started?
    ensures Given(e, TrimSpace(ev.call.deliveryID), TrimSpace(ev.call.userID), ev.now, ev.outcome.sessionID,
                ev.outcome.session, e')
  {
    var d, u := TrimSpace(ev.call.deliveryID), TrimSpace(ev.call.userID);
    var x := ev.outcome.sessionID;
    AttemptsAreSessions(e, d, u);
    if OpenSessions(e, d, u) != {} {
      assert LatestOpen(e, d, u, x) && e.sessions[x := e.sessions[x]] == e.sessions;
    }
  }

  // ---- saving an answer ----

  predicate Limited(cfg: Config, d: string) {
    && d in cfg.deliveries && cfg.deliveries[d].testID in cfg.timeLimits
    && cfg.timeLimits[cfg.deliveries[d].testID] > 0
  }

  // Later than the test's limit, which is in seconds, after a start; times are in nanoseconds.
  predicate Late(cfg: Config, d: string, start: int, checkedAt: int) {
    Limited(cfg, d) && checkedAt > start + cfg.timeLimits[cfg.deliveries[d].testID] * 1_000_000_000
  }

  ghost predicate InTest(cfg: Config, d: string, k: string) {
    exists i :: 0 <= i < |cfg.testItems| && OfTest(cfg, d, cfg.testItems[i], k)
  }

  lemma FoundIsInTest(cfg: Config, d: string, k: string)
    ensures FindTestItem(cfg, d, k).Some? <==> InTest(cfg, d, k)
  {
    if FindTestItem(cfg, d, k).Some? {
      var i := FirstTestItemAt(cfg, d, cfg.testItems, k);
      assert OfTest(cfg, d, cfg.testItems[i], k);
    }
    if i: nat :| i < |cfg.testItems| && OfTest(cfg, d, cfg.testItems[i], k) {
      FirstTestItemFound(cfg, d, cfg.testItems, i);
    }
  }

  /** Which answer SaveResponse gives, its limit checked at `ev.checkedAt`, and what it writes at `ev.now`. */
  lemma SaveAnswers(cfg: Config, e: Exam, ev: Event, e': Exam)
    requires ev.call.SaveCall? && Step(cfg, e, ev, e')
    ensures var x, k := ev.call.sessionID, ev.call.itemID;
            && (ev.outcome == Failed(SessionNotFound)
                <==> x !in e.sessions || e.sessions[x].userID != ev.call.userID)
            && (ev.outcome != Failed(SessionNotFound) ==>
                  var row := e.sessions[x]; var active := row.status == InProgress && row.startedAt.Some?;
                  && (ev.outcome == Failed(SessionCompleted) <==> row.status == Completed)
                  && (ev.outcome == Failed(SessionNotActive) <==> row.status != Completed && !active)
                  && (active ==>
                        var late, inTest := Late(cfg, row.deliveryID, row.startedAt.value, ev.checkedAt),
                            InTest(cfg, row.deliveryID, k);
                        && (ev.outcome == Failed(SessionExpired) <==> late)
                        && (ev.outcome == Failed(ItemNotInDelivery) <==> !late && !inTest)
                        && (ev.outcome.Saved? <==> !late && inTest))
                  && (ev.outcome.Saved? ==> active))
            && (ev.outcome.Failed? ==> e' == e)
            && (ev.outcome.Saved? ==>
                  && ev.outcome.response == Response(ev.call.data, ev.now, 0.0, false) && e'.sessions == e.sessions
                  && forall y :: Rows(e', y) == if y == x then Rows(e, x)[k := ev.outcome.response] else Rows(e, y))
  {
    if ev.outcome != Failed(SessionNotFound) {
      FoundIsInTest(cfg, e.sessions[ev.call.sessionID].deliveryID, ev.call.itemID);
    }
  }

  // ---- submitting ----

  // The mark that an item's answers get is defined.
  ghost predicate Markable(cfg: Config, d: string, k: string) {
    exists i :: MarkingRow(cfg, d, k, i) && ValidPoints(cfg, k, i)
  }

  lemma ScorableIsMarkable(cfg: Config, d: string, k: string)
    ensures Scorable(cfg, d, k) <==> Markable(cfg, d, k)
  {
    FoundIsInTest(cfg, d, k);
    if InTest(cfg, d, k) {
      var first := FirstTestItemAt(cfg, d, cfg.testItems, k);
      assert MarkingRow(cfg, d, k, first);
      if i :| MarkingRow(cfg, d, k, i) && ValidPoints(cfg, k, i) {
        assert i == first;
      }
      if Scorable(cfg, d, k) {
        assert ValidPoints(cfg, k, first);
      }
    }
  }

  // Whole seconds from the start to the finish, none when the clock shows less; a session that never
  // started keeps what it had.
  predicate TimeIsRecorded(before: Session, after: Session, finish: int) {
    match before.startedAt
    case None => after.timeSpent == before.timeSpent
    case Some(start) =>
      if finish < start then after.timeSpent == 0
      else start + after.timeSpent * 1_000_000_000 <= finish < start + (after.timeSpent + 1) * 1_000_000_000
  }

  lemma ElapsedIsRecorded(session: Session, total: real, now: int)
    ensures TimeIsRecorded(session, Finished(session, total, now), now)
  {
  }

  // What a completing submission writes.
  ghost predicate Completes(cfg: Config, e: Exam, x: string, now: int, row: Session, rows: map<string, Response>)
    requires x in e.sessions
  {
    var before := e.sessions[x];
    && row == before.(status := Completed, finishedAt := Some(now), totalScore := Sum(Scores(rows)),
                      timeSpent := row.timeSpent)
    && TimeIsRecorded(before, row, now)
    && rows.Keys == Rows(e, x).Keys && AllMarkedAt(cfg, before.deliveryID, rows)
    && forall k | k in rows && k in Rows(e, x) ::
         rows[k] == Rows(e, x)[k].(score := rows[k].score, correct := rows[k].correct)
  }

  /** Which answer SubmitSession gives, and what it writes at `ev.now`. */
  lemma SubmitAnswers(cfg: Config, e: Exam, ev: Event, e': Exam)
    requires ev.call.SubmitCall? && Step(cfg, e, ev, e')
    ensures var x := ev.call.sessionID;
            && (ev.outcome == Failed(SessionNotFound)
                <==> x !in e.sessions || e.sessions[x].userID != ev.call.userID)
            && (ev.outcome != Failed(SessionNotFound) ==>
                  var row, rows := e.sessions[x], Rows(e, x); var d := row.deliveryID;
                  && (row.status == Completed ==> ev.outcome == Submitted(row, rows, false) && e' == e)
                  && (ev.outcome == Failed(SessionNotActive) <==> row.status in {NotStarted, Paused})
                  && (row.status == InProgress ==>
                        && (ev.outcome.Submitted? <==> forall k | k in rows :: Markable(cfg, d, k))
                        && (ev.outcome == Failed(ItemNotInDelivery) ==> exists k | k in rows :: !InTest(cfg, d, k))
                        && (ev.outcome == Failed(InvalidScoring) ==> exists k | k in rows ::
                              InTest(cfg, d, k) && !Markable(cfg, d, k))
                        && (ev.outcome.Submitted? ==>
                              && ev.outcome.completedHere
                              && Completes(cfg, e, x, ev.now, ev.outcome.submitted, ev.outcome.rows)
                              && e'.sessions == e.sessions[x := ev.outcome.submitted]
                              && e'.responses == e.responses[x := ev.outcome.rows])))
            && (ev.outcome.Failed? ==> e' == e)
  {
    var x := ev.call.sessionID;
    if ev.outcome != Failed(SessionNotFound) && e.sessions[x].status == InProgress {
      var d, rows := e.sessions[x].deliveryID, Rows(e, x);
      forall k ensures Scorable(cfg, d, k) <==> Markable(cfg, d, k) {
        ScorableIsMarkable(cfg, d, k);
      }
      forall k ensures FindTestItem(cfg, d, k).Some? <==> InTest(cfg, d, k) {
        FoundIsInTest(cfg, d, k);
      }
      if ev.outcome.Submitted? {
        CompletionIsRight(cfg, e, x, ev.now, ev.outcome.submitted, ev.outcome.rows);
      }
    }
  }

  lemma CompletionIsRight(cfg: Config, e: Exam, x: string, now: int, row: Session, rows: map<string, Response>)
    requires x in e.sessions && AllScorable(cfg, e.sessions[x].deliveryID, Rows(e, x))
    requires rows == MarkedRows(cfg, e.sessions[x].deliveryID, Rows(e, x))
    requires row == Finished(e.sessions[x], Sum(Scores(rows)), now)
    ensures Completes(cfg, e, x, now, row, rows)
  {
    var d := e.sessions[x].deliveryID;
    ElapsedIsRecorded(e.sessions[x], Sum(Scores(rows)), now);
    forall k | k in rows ensures exists i :: MarkedAt(cfg, d, k, rows[k], i) {
      var i := MarkedIsMarkedAt(cfg, d, k, rows[k]);
    }
  }
}
