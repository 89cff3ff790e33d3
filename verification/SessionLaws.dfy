/** What every atomic session call keeps, and what follows from it. */
module SessionLaws {
  import opened Wrappers
  import opened Text
  import opened Scoring
  import opened Assessment
  import opened SessionSpec

  // ---- the invariant is kept ----

  lemma ReplayExtends(log: seq<Answer>, a: Answer)
    ensures Replay(log + [a]) == Replay(log)[a.itemID := a.data]
  {
    assert (log + [a])[..|log|] == log;
  }

  lemma AttemptsTransfer(cfg: Config, e: Exam, e': Exam, d: string, u: string)
    requires AttemptsOk(cfg, e, d, u)
    requires SessionsOf(e', d, u) == SessionsOf(e, d, u) && OpenSessions(e', d, u) <= OpenSessions(e, d, u)
    requires forall x | x in SessionsOf(e, d, u) :: e'.sessions[x].attempt == e.sessions[x].attempt
    ensures AttemptsOk(cfg, e', d, u)
  {
  }

  // A change that moves no session to another owner or number and opens none keeps the numbering.
  lemma NumberingTransfers(cfg: Config, e: Exam, e': Exam)
    requires NumberingOk(cfg, e) && e'.sessions.Keys == e.sessions.Keys
    requires forall s | s in e.sessions ::
               && Of(e'.sessions[s], e.sessions[s].deliveryID, e.sessions[s].userID)
               && e'.sessions[s].attempt == e.sessions[s].attempt
               && (e.sessions[s].status == Completed ==> e'.sessions[s].status == Completed)
    ensures NumberingOk(cfg, e')
  {
    forall d, u ensures AttemptsOk(cfg, e', d, u) {
      assert AttemptsOk(cfg, e, d, u);
      assert SessionsOf(e', d, u) == SessionsOf(e, d, u);
      assert OpenSessions(e', d, u) <= OpenSessions(e, d, u);
      AttemptsTransfer(cfg, e, e', d, u);
    }
  }

  // The tables differ in this session's row, answers and log.
  predicate Replaced(e: Exam, e': Exam, s: string, row: Session, rows: map<string, Response>, log: seq<Answer>) {
    && e'.sessions == e.sessions[s := row] && e'.log == e.log[s := log] && e'.responses.Keys <= e'.sessions.Keys
    && forall t | t in e'.sessions :: Rows(e', t) == if t == s then rows else Rows(e, t)
  }

  // A change to one session's row, answers and log leaves the other sessions' answers as they were.
  lemma AnswersReplaced(
    cfg: Config, e: Exam, e': Exam, s: string, row: Session, rows: map<string, Response>, log: seq<Answer>)
    requires AnswersOk(cfg, e) && RowsOk(cfg, row, rows, log) && Replaced(e, e', s, row, rows, log)
    ensures AnswersOk(cfg, e')
  {
    forall t | t in e'.sessions ensures RowsOk(cfg, e'.sessions[t], Rows(e', t), e'.log[t]) {
      if t != s {
        assert RowsOk(cfg, e.sessions[t], Rows(e, t), e.log[t]);
      }
    }
  }

  lemma BegunRows(cfg: Config, session: Session, rows: map<string, Response>, log: seq<Answer>, now: int)
    requires RowsOk(cfg, session, rows, log) && session.status == NotStarted
    ensures RowsOk(cfg, Begun(session, now), rows, log)
  {
  }

  lemma BeginKeepsAnswers(cfg: Config, e: Exam, s: string, now: int)
    requires AnswersOk(cfg, e) && s in e.sessions && e.sessions[s].status == NotStarted
    ensures AnswersOk(cfg, PutSession(e, s, Begun(e.sessions[s], now)))
  {
    var e' := PutSession(e, s, Begun(e.sessions[s], now));
    BegunRows(cfg, e.sessions[s], Rows(e, s), e.log[s], now);
    assert e'.log == e.log[s := e.log[s]];
    AnswersReplaced(cfg, e, e', s, e'.sessions[s], Rows(e, s), e.log[s]);
  }

  lemma BeginKeepsTables(cfg: Config, e: Exam, s: string, now: int)
    requires TablesOk(cfg, e) && s in e.sessions && e.sessions[s].status == NotStarted
    ensures TablesOk(cfg, PutSession(e, s, Begun(e.sessions[s], now)))
  {
    NumberingTransfers(cfg, e, PutSession(e, s, Begun(e.sessions[s], now)));
    BeginKeepsAnswers(cfg, e, s, now);
  }

  lemma AddedToOwnSets(e: Exam, s: string, row: Session)
    requires s !in e.sessions && row.status != Completed
    ensures var e', d, u := AddSession(e, s, row), row.deliveryID, row.userID;
            SessionsOf(e', d, u) == SessionsOf(e, d, u) + {s} && OpenSessions(e', d, u) == OpenSessions(e, d, u) + {s}
  {
  }

  lemma NotAddedToOtherSets(e: Exam, s: string, row: Session, d: string, u: string)
    requires s !in e.sessions && !Of(row, d, u)
    ensures var e' := AddSession(e, s, row);
            && SessionsOf(e', d, u) == SessionsOf(e, d, u) && OpenSessions(e', d, u) == OpenSessions(e, d, u)
            && forall x | x in SessionsOf(e, d, u) :: e'.sessions[x].attempt == e.sessions[x].attempt
  {
  }

  // A new open session may take the next number of an owner who has no open one.
  predicate NextAttempt(cfg: Config, e: Exam, row: Session) {
    var d, u := row.deliveryID, row.userID;
    && OpenSessions(e, d, u) == {}
    && |SessionsOf(e, d, u)| < AttemptLimit(cfg, d) && row.attempt == |SessionsOf(e, d, u)| + 1
  }

  lemma AddKeepsOthersAttempts(cfg: Config, e: Exam, s: string, row: Session, d: string, u: string)
    requires AttemptsOk(cfg, e, d, u) && s !in e.sessions && row.status == InProgress && !Of(row, d, u)
    ensures AttemptsOk(cfg, AddSession(e, s, row), d, u)
  {
    NotAddedToOtherSets(e, s, row, d, u);
    AttemptsTransfer(cfg, e, AddSession(e, s, row), d, u);
  }

  lemma AddKeepsOwnAttempts(cfg: Config, e: Exam, s: string, row: Session)
    requires AttemptsOk(cfg, e, row.deliveryID, row.userID) && s !in e.sessions && row.status == InProgress
    requires NextAttempt(cfg, e, row)
    ensures AttemptsOk(cfg, AddSession(e, s, row), row.deliveryID, row.userID)
  {
    var e', d, u := AddSession(e, s, row), row.deliveryID, row.userID;
    AddedToOwnSets(e, s, row);
    assert |SessionsOf(e', d, u)| == |SessionsOf(e, d, u)| + 1;
    assert OpenSessions(e', d, u) == {s};
  }

  lemma AddKeepsAnswers(cfg: Config, e: Exam, s: string, row: Session)
    requires AnswersOk(cfg, e) && s !in e.sessions && row.status == InProgress
    ensures AnswersOk(cfg, AddSession(e, s, row))
  {
    var e' := AddSession(e, s, row);
    assert Rows(e', s) == map[];
    NoAnswersYet(cfg, row);
    AnswersReplaced(cfg, e, e', s, row, map[], []);
  }

  lemma AddKeepsTables(cfg: Config, e: Exam, s: string, row: Session)
    requires TablesOk(cfg, e) && s !in e.sessions && row.status == InProgress && NextAttempt(cfg, e, row)
    ensures TablesOk(cfg, AddSession(e, s, row))
  {
    forall d, u ensures AttemptsOk(cfg, AddSession(e, s, row), d, u) {
      assert AttemptsOk(cfg, e, d, u);
      if Of(row, d, u) {
        AddKeepsOwnAttempts(cfg, e, s, row);
      } else {
        AddKeepsOthersAttempts(cfg, e, s, row, d, u);
      }
    }
    AddKeepsAnswers(cfg, e, s, row);
  }

  lemma NoAnswersYet(cfg: Config, row: Session)
    requires row.status == InProgress
    ensures RowsOk(cfg, row, map[], [])
  {
  }

  lemma SaveKeepsRows(
      cfg: Config, session: Session, rows: map<string, Response>, log: seq<Answer>, itemID: string, data: string,
      now: int)
    requires RowsOk(cfg, session, rows, log) && session.status == InProgress
    requires FindTestItem(cfg, session.deliveryID, itemID).Some?
    ensures RowsOk(cfg, session, rows[itemID := Response(data, now, 0.0, false)], log + [Answer(itemID, data)])
  {
    ReplayExtends(log, Answer(itemID, data));
    assert Data(rows[itemID := Response(data, now, 0.0, false)]) == Data(rows)[itemID := data];
  }

  lemma SaveKeepsAnswers(cfg: Config, e: Exam, s: string, itemID: string, row: Response)
    requires AnswersOk(cfg, e) && s in e.sessions
    requires RowsOk(cfg, e.sessions[s], Rows(e, s)[itemID := row], e.log[s] + [Answer(itemID, row.data)])
    ensures AnswersOk(cfg, PutResponse(e, s, itemID, row))
  {
    var rows, log := Rows(e, s)[itemID := row], e.log[s] + [Answer(itemID, row.data)];
    PutResponseReplaces(e, s, itemID, row);
    AnswersReplaced(cfg, e, PutResponse(e, s, itemID, row), s, e.sessions[s], rows, log);
  }

  lemma PutResponseReplaces(e: Exam, s: string, itemID: string, row: Response)
    requires s in e.sessions && s in e.log && e.responses.Keys <= e.sessions.Keys
    ensures Replaced(
              e, PutResponse(e, s, itemID, row), s, e.sessions[s], Rows(e, s)[itemID := row],
              e.log[s] + [Answer(itemID, row.data)])
  {
    assert e.sessions == e.sessions[s := e.sessions[s]];
  }

  lemma SaveKeepsTables(cfg: Config, e: Exam, s: string, itemID: string, data: string, now: int)
    requires TablesOk(cfg, e) && s in e.sessions && e.sessions[s].status == InProgress
    requires FindTestItem(cfg, e.sessions[s].deliveryID, itemID).Some?
    ensures TablesOk(cfg, PutResponse(e, s, itemID, Response(data, now, 0.0, false)))
  {
    var row := Response(data, now, 0.0, false);
    NumberingTransfers(cfg, e, PutResponse(e, s, itemID, row));
    SaveKeepsRows(cfg, e.sessions[s], Rows(e, s), e.log[s], itemID, data, now);
    SaveKeepsAnswers(cfg, e, s, itemID, row);
  }

  lemma MarkingKeepsRows(cfg: Config, session: Session, rows: map<string, Response>, log: seq<Answer>, now: int)
    requires RowsOk(cfg, session, rows, log) && session.status == InProgress
    requires AllScorable(cfg, session.deliveryID, rows)
    ensures var marked := MarkedRows(cfg, session.deliveryID, rows);
            RowsOk(cfg, Finished(session, Sum(Scores(marked)), now), marked, log)
  {
    var marked := MarkedRows(cfg, session.deliveryID, rows);
    assert Data(marked) == Data(rows);
  }

  lemma CompleteKeepsAnswers(cfg: Config, e: Exam, s: string, row: Session, marked: map<string, Response>)
    requires AnswersOk(cfg, e) && s in e.sessions && RowsOk(cfg, row, marked, e.log[s])
    ensures AnswersOk(cfg, CompleteSession(e, s, row, marked))
  {
    CompleteSessionReplaces(e, s, row, marked);
    AnswersReplaced(cfg, e, CompleteSession(e, s, row, marked), s, row, marked, e.log[s]);
  }

  lemma CompleteSessionReplaces(e: Exam, s: string, row: Session, marked: map<string, Response>)
    requires s in e.sessions && s in e.log && e.responses.Keys <= e.sessions.Keys
    ensures Replaced(e, CompleteSession(e, s, row, marked), s, row, marked, e.log[s])
  {
    assert e.log == e.log[s := e.log[s]];
  }

  lemma CompleteKeepsNumbering(cfg: Config, e: Exam, s: string, row: Session, marked: map<string, Response>)
    requires NumberingOk(cfg, e) && s in e.sessions && row.status == Completed
    requires Of(row, e.sessions[s].deliveryID, e.sessions[s].userID) && row.attempt == e.sessions[s].attempt
    ensures NumberingOk(cfg, CompleteSession(e, s, row, marked))
  {
    NumberingTransfers(cfg, e, CompleteSession(e, s, row, marked));
  }

  lemma CompleteKeepsTables(cfg: Config, e: Exam, s: string, row: Session, marked: map<string, Response>, now: int)
    requires TablesOk(cfg, e) && s in e.sessions && e.sessions[s].status == InProgress
    requires AllScorable(cfg, e.sessions[s].deliveryID, Rows(e, s))
    requires marked == MarkedRows(cfg, e.sessions[s].deliveryID, Rows(e, s))
    requires row == Finished(e.sessions[s], Sum(Scores(marked)), now)
    ensures TablesOk(cfg, CompleteSession(e, s, row, marked))
  {
    CompleteKeepsNumbering(cfg, e, s, row, marked);
    MarkingKeepsRows(cfg, e.sessions[s], Rows(e, s), e.log[s], now);
    CompleteKeepsAnswers(cfg, e, s, row, marked);
  }

  /** Every atomic call keeps the attempt rules, the answer log and the scoring rules of all sessions. */
  lemma StepKeepsTables(cfg: Config, e: Exam, ev: Event, e': Exam)
    requires TablesOk(cfg, e) && Step(cfg, e, ev, e')
    ensures TablesOk(cfg, e')
  {
    match ev.call
    case StartCall(_, _) =>
      var d, u := TrimSpace(ev.call.deliveryID), TrimSpace(ev.call.userID);
      if e' != e {
        if OpenSessions(e, d, u) != {} {
          BeginKeepsTables(cfg, e, ev.outcome.sessionID, ev.now);
        } else {
          AddKeepsTables(cfg, e, ev.outcome.sessionID, ev.outcome.session);
        }
      }
    case SaveCall(s, _, itemID, data) =>
      if SaveRefusal(cfg, e, ev.call, ev.checkedAt).None? {
        SaveKeepsTables(cfg, e, s, itemID, data, ev.now);
      }
    case SubmitCall(s, _) =>
      if ev.outcome.Submitted? && ev.outcome.completedHere {
        CompleteKeepsTables(cfg, e, s, ev.outcome.submitted, ev.outcome.rows, ev.now);
      }
  }

  // ---- what a session never loses ----

  // From e to e': sessions stay, with their owner, delivery, number and start; the log grows; a
  // completed session and its rows and log stay as they are.
  ghost predicate SessionEvolves(e: Exam, e': Exam, s: string)
    requires s in e.sessions
  {
    && s in e'.sessions
    && (var before, after := e.sessions[s], e'.sessions[s];
        && after.deliveryID == before.deliveryID && after.userID == before.userID && after.attempt == before.attempt
        && (before.status != NotStarted ==> after.startedAt == before.startedAt && after.status != NotStarted)
        && (before.status == Completed ==> after == before && Rows(e', s) == Rows(e, s)))
    && History(e, s) <= History(e', s)
    && (e.sessions[s].status == Completed ==> History(e', s) == History(e, s))
  }

  ghost predicate Evolves(e: Exam, e': Exam) {
    forall s | s in e.sessions :: SessionEvolves(e, e', s)
  }

  lemma EvolvesReflexive(e: Exam)
    ensures Evolves(e, e)
  {
  }

  lemma EvolvesTransitive(e: Exam, f: Exam, g: Exam)
    requires Evolves(e, f) && Evolves(f, g)
    ensures Evolves(e, g)
  {
    forall s | s in e.sessions ensures SessionEvolves(e, g, s) {
      assert SessionEvolves(e, f, s) && SessionEvolves(f, g, s);
    }
  }

  lemma StepEvolves(cfg: Config, e: Exam, ev: Event, e': Exam)
    requires TablesOk(cfg, e) && Step(cfg, e, ev, e')
    ensures Evolves(e, e')
  {
    match ev.call
    case StartCall(_, _) => StartEvolves(cfg, e, ev, e');
    case SaveCall(_, _, _, _) => SaveEvolves(cfg, e, ev, e');
    case SubmitCall(_, _) => SubmitEvolves(cfg, e, ev, e');
  }

  lemma StartEvolves(cfg: Config, e: Exam, ev: Event, e': Exam)
    requires ev.call.StartCall? && StartStep(cfg, e, ev, e')
    ensures Evolves(e, e')
  {
    if e' != e && OpenSessions(e, TrimSpace(ev.call.deliveryID), TrimSpace(ev.call.userID)) != {} {
      BeginEvolves(e, ev.outcome.sessionID, ev.now);
    } else if e' != e {
      AddEvolves(e, ev.outcome.sessionID, ev.outcome.session);
    }
  }

  lemma BeginEvolves(e: Exam, s: string, now: int)
    requires s in e.sessions && e.sessions[s].status == NotStarted
    ensures Evolves(e, PutSession(e, s, Begun(e.sessions[s], now)))
  {
  }

  lemma AddEvolves(e: Exam, s: string, row: Session)
    requires s !in e.sessions
    ensures Evolves(e, AddSession(e, s, row))
  {
  }

  lemma SaveEvolves(cfg: Config, e: Exam, ev: Event, e': Exam)
    requires ev.call.SaveCall? && SaveStep(cfg, e, ev, e')
    ensures Evolves(e, e')
  {
  }

  lemma SubmitEvolves(cfg: Config, e: Exam, ev: Event, e': Exam)
    requires ev.call.SubmitCall? && SubmitStep(cfg, e, ev, e')
    ensures Evolves(e, e')
  {
  }

  // ---- consequences ----

  function UpTo(n: nat): (r: set<int>)
    ensures forall k :: k in r <==> 1 <= k <= n
    ensures |r| == n
  {
    if n == 0 then {} else UpTo(n - 1) + {n as int}
  }

  lemma SubsetOfSameSize<T>(a: set<T>, b: set<T>)
    requires a <= b && |a| == |b|
    ensures a == b
  {
    if x :| x in b && x !in a {
      assert a + {x} <= b;
      SubsetSize(a + {x}, b);
    }
  }

  lemma SubsetSize<T>(a: set<T>, b: set<T>)
    requires a <= b
    ensures |a| <= |b|
  {
    assert b == a + (b - a);
    assert |b| == |a| + |b - a|;
  }

  lemma {:induction false} ImageSize(e: Exam, mine: set<string>)
    requires forall s | s in mine :: s in e.sessions
    requires forall s, t | s in mine && t in mine && e.sessions[s].attempt == e.sessions[t].attempt :: s == t
    ensures |set s | s in mine :: e.sessions[s].attempt| == |mine|
  {
    var image := set s | s in mine :: e.sessions[s].attempt;
    if mine != {} {
      var x :| x in mine;
      ImageSize(e, mine - {x});
      assert image == (set s | s in mine - {x} :: e.sessions[s].attempt) + {e.sessions[x].attempt};
    } else {
      assert image == {};
    }
  }

  /** The attempt numbers of a user at a delivery are exactly 1..n, and n is within the limit. */
  lemma AttemptsAreOneToN(cfg: Config, e: Exam, d: string, u: string)
    requires TablesOk(cfg, e)
    ensures (set s | s in SessionsOf(e, d, u) :: e.sessions[s].attempt) == UpTo(|SessionsOf(e, d, u)|)
    ensures |SessionsOf(e, d, u)| <= AttemptLimit(cfg, d)
    ensures |OpenSessions(e, d, u)| <= 1
  {
    assert AttemptsOk(cfg, e, d, u);
    NumbersOf(cfg, e, d, u);
  }

  lemma NumbersOf(cfg: Config, e: Exam, d: string, u: string)
    requires AttemptsOk(cfg, e, d, u)
    ensures (set s | s in SessionsOf(e, d, u) :: e.sessions[s].attempt) == UpTo(|SessionsOf(e, d, u)|)
    ensures |OpenSessions(e, d, u)| <= 1
  {
    var mine := SessionsOf(e, d, u);
    ImageSize(e, mine);
    SubsetOfSameSize(set s | s in mine :: e.sessions[s].attempt, UpTo(|mine|));
    if s :| s in OpenSessions(e, d, u) {
      assert OpenSessions(e, d, u) == {s};
    }
  }

  /**
   When no row of the delivery's test has negative points, a completed session's total lies between zero
   and the maximum that is reported with the grade, the sum of all points.
   */
  lemma TotalWithinReportedMaximum(cfg: Config, e: Exam, s: string, points: map<int, real>)
    requires TablesOk(cfg, e) && s in e.sessions && e.sessions[s].status == Completed
    requires ArePoints(cfg, e.sessions[s].deliveryID, cfg.testItems, points)
    requires forall i | i in points :: points[i] >= 0.0
    ensures 0.0 <= e.sessions[s].totalScore <= Sum(points)
    ensures DeliveryMaximumScore(cfg, e.sessions[s].deliveryID) == if Sum(points) > 0.0 then Some(Sum(points)) else None
  {
    ReportedMaximumIsSum(cfg, e.sessions[s].deliveryID, points);
    MaximumIsSum(cfg, e.sessions[s].deliveryID, cfg.testItems, points);
    NothingIsWorthLess(cfg, e.sessions[s].deliveryID, points);
    TotalWithinMaximum(cfg, e, s);
  }

  lemma NothingIsWorthLess(cfg: Config, d: string, points: map<int, real>)
    requires ArePoints(cfg, d, cfg.testItems, points) && forall i | i in points :: points[i] >= 0.0
    ensures forall r | r in cfg.testItems :: Worth(cfg, d, r) >= 0.0
  {
    forall i | 0 <= i < |cfg.testItems| ensures Worth(cfg, d, cfg.testItems[i]) >= 0.0 {
      assert i in points ==> points[i] >= 0.0;
    }
  }

  lemma TotalWithinMaximum(cfg: Config, e: Exam, s: string)
    requires AnswersOk(cfg, e) && s in e.sessions && e.sessions[s].status == Completed
    requires forall r | r in cfg.testItems :: Worth(cfg, e.sessions[s].deliveryID, r) >= 0.0
    ensures 0.0 <= e.sessions[s].totalScore <= MaximumOver(cfg, e.sessions[s].deliveryID, cfg.testItems)
  {
    var session, rows := e.sessions[s], Rows(e, s);
    var d := session.deliveryID;
    assert RowsOk(cfg, session, rows, e.log[s]);
    forall k | k in Scores(rows)
      ensures FirstTestItem(cfg, d, cfg.testItems, k).Some?
      ensures 0.0 <= Scores(rows)[k] <= Worth(cfg, d, FirstTestItem(cfg, d, cfg.testItems, k).value)
    {
      assert rows[k] == Marked(cfg, d, k, rows[k]);
      AwardedWithinWorth(cfg, d, k, rows[k].data);
    }
    assert WithinFirstRows(cfg, d, cfg.testItems, Scores(rows));
    SumWithinMaximum(cfg, d, cfg.testItems, Scores(rows));
  }

  lemma FirstTestItemIsOfItem(cfg: Config, d: string, rows: seq<TestItem>, k: string)
    requires FirstTestItem(cfg, d, rows, k).Some?
    ensures InDelivery(cfg, d, FirstTestItem(cfg, d, rows, k).value)
    ensures FirstTestItem(cfg, d, rows, k).value.itemID == k
  {
  }

  // Where the row stands that marks an item.
  lemma {:induction false} FirstTestItemAt(cfg: Config, d: string, rows: seq<TestItem>, k: string) returns (i: nat)
    requires FirstTestItem(cfg, d, rows, k).Some?
    ensures i < |rows| && FirstTestItem(cfg, d, rows, k) == Some(rows[i]) && InDelivery(cfg, d, rows[i])
    ensures rows[i].itemID == k && forall j | 0 <= j < i :: !(InDelivery(cfg, d, rows[j]) && rows[j].itemID == k)
  {
    if InDelivery(cfg, d, rows[0]) && rows[0].itemID == k {
      i := 0;
    } else {
      i := FirstTestItemAt(cfg, d, rows[1..], k);
      assert forall j | 0 < j <= i :: rows[j] == rows[1..][j - 1];
      i := i + 1;
    }
  }

  lemma {:induction false} FirstTestItemFound(cfg: Config, d: string, rows: seq<TestItem>, i: nat)
    requires i < |rows| && InDelivery(cfg, d, rows[i])
    ensures FirstTestItem(cfg, d, rows, rows[i].itemID).Some?
  {
    if i > 0 {
      FirstTestItemFound(cfg, d, rows[1..], i - 1);
    }
  }

  lemma MarkOf(cfg: Config, d: string, k: string, row: Response, testItem: TestItem)
    requires Scorable(cfg, d, k) && row == Marked(cfg, d, k, row)
    requires FindTestItem(cfg, d, k) == Some(testItem) && testItem.itemID == k
    ensures k in cfg.items && 0.0 < testItem.weight <= 1_000_000.0 && 0.0 < cfg.items[k].maxScore <= 1_000_000.0
    ensures row.correct <==> Correct(cfg.fold, cfg.items[k], row.data)
    ensures row.score == if row.correct then cfg.items[k].maxScore * testItem.weight else 0.0
  {
  }

  // A row that puts the item into the delivery's test.
  predicate OfTest(cfg: Config, d: string, row: TestItem, k: string) {
    && row.itemID == k && d in cfg.deliveries && row.sectionID in cfg.sections
    && cfg.sections[row.sectionID] == cfg.deliveries[d].testID
  }

  // The first row of the test with the item.
  predicate MarkingRow(cfg: Config, d: string, k: string, i: int) {
    && 0 <= i < |cfg.testItems| && OfTest(cfg, d, cfg.testItems[i], k)
    && forall j | 0 <= j < i :: !OfTest(cfg, d, cfg.testItems[j], k)
  }

  predicate ValidPoints(cfg: Config, k: string, i: int) {
    && 0 <= i < |cfg.testItems| && k in cfg.items
    && 0.0 < cfg.testItems[i].weight <= 1_000_000.0 && 0.0 < cfg.items[k].maxScore <= 1_000_000.0
  }

  // The row bears the mark that the first row of the test with its item gives: a right answer earns the
  // item's maximum times the row's weight, another answer nothing.
  ghost predicate MarkedAt(cfg: Config, d: string, k: string, row: Response, i: nat) {
    && MarkingRow(cfg, d, k, i) && ValidPoints(cfg, k, i)
    && (row.correct <==> Correct(cfg.fold, cfg.items[k], row.data))
    && row.score == if row.correct then cfg.items[k].maxScore * cfg.testItems[i].weight else 0.0
  }

  lemma MarkedIsMarkedAt(cfg: Config, d: string, k: string, row: Response) returns (i: nat)
    requires Scorable(cfg, d, k) && row == Marked(cfg, d, k, row)
    ensures MarkedAt(cfg, d, k, row, i)
  {
    i := FirstTestItemAt(cfg, d, cfg.testItems, k);
    MarkOf(cfg, d, k, row, cfg.testItems[i]);
  }

  // All rows bear their marks.
  ghost predicate AllMarkedAt(cfg: Config, d: string, rows: map<string, Response>) {
    forall k | k in rows :: exists i :: MarkedAt(cfg, d, k, rows[k], i)
  }

  /** What the rows of a completed session are worth, and the total. */
  lemma MarksAreWeighted(cfg: Config, e: Exam, s: string)
    requires AnswersOk(cfg, e) && s in e.sessions && e.sessions[s].status == Completed
    ensures AllMarkedAt(cfg, e.sessions[s].deliveryID, Rows(e, s))
    ensures e.sessions[s].totalScore == Sum(Scores(Rows(e, s)))
  {
    var d, rows := e.sessions[s].deliveryID, Rows(e, s);
    assert RowsOk(cfg, e.sessions[s], rows, e.log[s]);
    forall k | k in rows ensures exists i :: MarkedAt(cfg, d, k, rows[k], i) {
      var i := MarkedIsMarkedAt(cfg, d, k, rows[k]);
    }
  }

  // Every row of the delivery's test that counts is the only one of its item, and its item was
  // answered right.
  ghost predicate AllRight(cfg: Config, points: map<int, real>, rows: map<string, Response>) {
    && (forall i | i in points ::
          && 0 <= i < |cfg.testItems| && cfg.testItems[i].itemID in cfg.items && cfg.testItems[i].itemID in rows
          && Correct(cfg.fold, cfg.items[cfg.testItems[i].itemID], rows[cfg.testItems[i].itemID].data))
    && (forall i, j | i in points && j in points && cfg.testItems[i].itemID == cfg.testItems[j].itemID :: i == j)
  }

  lemma PointOf(cfg: Config, d: string, rows: seq<TestItem>, points: map<int, real>, i: nat, k: string)
    requires ArePoints(cfg, d, rows, points) && i < |rows| && OfTest(cfg, d, rows[i], k) && k in cfg.items
    ensures i in points && points[i] == cfg.items[k].maxScore * rows[i].weight
  {
  }

  lemma MarkedIsPoint(cfg: Config, d: string, points: map<int, real>, k: string, row: Response) returns (i: nat)
    requires ArePoints(cfg, d, cfg.testItems, points) && exists j :: MarkedAt(cfg, d, k, row, j)
    ensures i in points && i < |cfg.testItems| && cfg.testItems[i].itemID == k && k in cfg.items
    ensures Correct(cfg.fold, cfg.items[k], row.data) ==> row.score == points[i]
  {
    i :| MarkedAt(cfg, d, k, row, i);
    PointOf(cfg, d, cfg.testItems, points, i, k);
  }

  // The items by the positions of the rows that count.
  function NamesOf(rows: seq<TestItem>, points: map<int, real>): map<int, string> {
    map i | i in points && 0 <= i < |rows| :: rows[i].itemID
  }

  lemma PointIsScored(cfg: Config, d: string, points: map<int, real>, rows: map<string, Response>, i: int)
    requires ArePoints(cfg, d, cfg.testItems, points) && AllRight(cfg, points, rows) && AllMarkedAt(cfg, d, rows)
    requires i in points
    ensures i in NamesOf(cfg.testItems, points)
    ensures var k := NamesOf(cfg.testItems, points)[i]; k in rows && rows[k].score == points[i]
  {
    var k := cfg.testItems[i].itemID;
    var first := MarkedIsPoint(cfg, d, points, k, rows[k]);
  }

  lemma ScoreHasPoint(cfg: Config, d: string, points: map<int, real>, rows: map<string, Response>, k: string)
    requires ArePoints(cfg, d, cfg.testItems, points) && AllMarkedAt(cfg, d, rows) && k in rows
    ensures exists i :: Names(points, NamesOf(cfg.testItems, points), i, k)
  {
    var first := MarkedIsPoint(cfg, d, points, k, rows[k]);
    assert Names(points, NamesOf(cfg.testItems, points), first, k);
  }

  lemma ItemsDiffer(cfg: Config, points: map<int, real>, rows: map<string, Response>, i: int, j: int, k: string)
    requires AllRight(cfg, points, rows)
    requires Names(points, NamesOf(cfg.testItems, points), i, k) && Names(points, NamesOf(cfg.testItems, points), j, k)
    ensures i == j
  {
  }

  lemma AllRightScoresAllPoints(cfg: Config, d: string, points: map<int, real>, rows: map<string, Response>)
    requires ArePoints(cfg, d, cfg.testItems, points) && AllRight(cfg, points, rows) && AllMarkedAt(cfg, d, rows)
    ensures Sum(Scores(rows)) == Sum(points)
  {
    var names, scores := NamesOf(cfg.testItems, points), Scores(rows);
    forall i | i in points ensures i in names && names[i] in scores && scores[names[i]] == points[i] {
      PointIsScored(cfg, d, points, rows, i);
    }
    forall i, j, k | Names(points, names, i, k) && Names(points, names, j, k) ensures i == j {
      ItemsDiffer(cfg, points, rows, i, j, k);
    }
    forall k | k in scores ensures exists i :: Names(points, names, i, k) {
      ScoreHasPoint(cfg, d, points, rows, k);
    }
    SumOfRenamed(points, names, scores);
  }

  /** Who answers every item of the test right gets the sum of all points. */
  lemma AllRightGetsAllPoints(cfg: Config, e: Exam, s: string, points: map<int, real>)
    requires AnswersOk(cfg, e) && s in e.sessions && e.sessions[s].status == Completed
    requires ArePoints(cfg, e.sessions[s].deliveryID, cfg.testItems, points) && AllRight(cfg, points, Rows(e, s))
    ensures e.sessions[s].totalScore == Sum(points)
  {
    MarksAreWeighted(cfg, e, s);
    AllRightScoresAllPoints(cfg, e.sessions[s].deliveryID, points, Rows(e, s));
  }

  lemma AwardedWithinWorth(cfg: Config, d: string, k: string, data: string)
    requires Scorable(cfg, d, k)
    ensures 0.0 <= Awarded(cfg, d, k, data) <= Worth(cfg, d, FindTestItem(cfg, d, k).value)
  {
    FirstTestItemIsOfItem(cfg, d, cfg.testItems, k);
    var row := FindTestItem(cfg, d, k).value;
    var score := Score(cfg.fold, ItemOf(cfg, row), data);
    assert score == 0.0 || score == ItemOf(cfg, row).maxScore;
    assert 0.0 <= ItemOf(cfg, row).maxScore * row.weight;
  }

  /**
   The submitted total depends on the log of accepted saves and on nothing else: not on when the
   session was submitted, nor on the order in which its rows were marked.
   */
  lemma TotalDependsOnSavesOnly(cfg: Config, e: Exam, f: Exam, s: string, t: string)
    requires AnswersOk(cfg, e) && s in e.sessions && e.sessions[s].status == Completed
    requires AnswersOk(cfg, f) && t in f.sessions && f.sessions[t].status == Completed
    requires e.sessions[s].deliveryID == f.sessions[t].deliveryID && Replay(e.log[s]) == Replay(f.log[t])
    ensures e.sessions[s].totalScore == f.sessions[t].totalScore
  {
    assert RowsOk(cfg, e.sessions[s], Rows(e, s), e.log[s]) && RowsOk(cfg, f.sessions[t], Rows(f, t), f.log[t]);
    SameDataSameScores(cfg, e.sessions[s].deliveryID, Rows(e, s), Rows(f, t));
  }

  lemma SameDataSameScores(cfg: Config, d: string, rows: map<string, Response>, rows': map<string, Response>)
    requires Data(rows) == Data(rows') && AllScorable(cfg, d, rows) && AllScorable(cfg, d, rows')
    requires forall k | k in rows :: rows[k] == Marked(cfg, d, k, rows[k])
    requires forall k | k in rows' :: rows'[k] == Marked(cfg, d, k, rows'[k])
    ensures Scores(rows) == Scores(rows')
  {
    assert rows.Keys == Data(rows).Keys == Data(rows').Keys == rows'.Keys;
    forall k | k in rows ensures rows[k].score == rows'[k].score {
      assert Data(rows)[k] == Data(rows')[k];
    }
  }

  /** A submission that can be marked succeeds whatever the clock says, with a total that does not depend on it. */
  lemma SubmissionIsNeverLate(cfg: Config, e: Exam, s: string, now: int)
    requires s in e.sessions && e.sessions[s].status == InProgress
    requires AllScorable(cfg, e.sessions[s].deliveryID, Rows(e, s))
    ensures exists ev, e' :: Step(cfg, e, ev, e') && ev.call == SubmitCall(s, e.sessions[s].userID) && ev.now == now
                             && ev.outcome.Submitted? && ev.outcome.completedHere
    ensures forall ev, e' | Step(cfg, e, ev, e') && ev.call == SubmitCall(s, e.sessions[s].userID) ::
              && e'.sessions[s].status == Completed
              && e'.sessions[s].totalScore == Sum(Scores(MarkedRows(cfg, e.sessions[s].deliveryID, Rows(e, s))))
  {
    var marked := MarkedRows(cfg, e.sessions[s].deliveryID, Rows(e, s));
    var finished := Finished(e.sessions[s], Sum(Scores(marked)), now);
    var ev := Event(SubmitCall(s, e.sessions[s].userID), now, now, Submitted(finished, marked, true));
    assert Step(cfg, e, ev, CompleteSession(e, s, finished, marked));
  }
}
