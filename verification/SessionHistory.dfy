/** The answers of a session are those of the SaveResponse calls that were accepted, in their order. */
module SessionHistory {
  import opened Assessment
  import opened SessionSpec
  import opened SessionProtocol
  import opened SessionTheorems
  import opened SessionLinearization

  // The answer that an atomic call saves in session x, if it is an accepted save of x.
  function AcceptedSave(ev: Event, x: string): seq<Answer> {
    if ev.call.SaveCall? && ev.call.sessionID == x && ev.outcome.Saved? then [Answer(ev.call.itemID, ev.call.data)]
        else []
  }

  // The accepted saves of session x among the atomic calls of a run, in the order of their effects.
  function AcceptedSaves(trace: seq<Atomic>, x: string): seq<Answer> {
    if trace == [] then [] else AcceptedSave(trace[0].ev, x) + AcceptedSaves(trace[1..], x)
  }

  lemma StepSaves(cfg: Config, e: Exam, ev: Event, e': Exam, x: string)
    requires TablesOk(cfg, e) && Step(cfg, e, ev, e')
    ensures History(e', x) == History(e, x) + AcceptedSave(ev, x)
  {
    match ev.call
    case StartCall(_, _) => StartSavesNothing(cfg, e, ev, e', x);
    case SaveCall(_, _, _, _) =>
    case SubmitCall(_, _) =>
  }

  lemma StartSavesNothing(cfg: Config, e: Exam, ev: Event, e': Exam, x: string)
    requires TablesOk(cfg, e) && ev.call.StartCall? && StartStep(cfg, e, ev, e')
    ensures History(e', x) == History(e, x)
  {
  }

  lemma AcceptedSavesSum(xs: seq<Atomic>, ys: seq<Atomic>, x: string)
    ensures AcceptedSaves(xs + ys, x) == AcceptedSaves(xs, x) + AcceptedSaves(ys, x)
  {
    if xs == [] {
      assert xs + ys == ys;
    } else {
      AcceptedSavesSum(xs[1..], ys, x);
      assert (xs + ys)[1..] == xs[1..] + ys && (xs + ys)[0] == xs[0];
      Associative(AcceptedSave(xs[0].ev, x), AcceptedSaves(xs[1..], x), AcceptedSaves(ys, x));
    }
  }

  lemma Associative<T>(a: seq<T>, b: seq<T>, c: seq<T>)
    ensures (a + b) + c == a + (b + c)
  {
  }

  lemma ActionSaves(cfg: Config, s: State, a: Action, x: string)
    requires Inv(cfg, s) && Clocked(s) && Enabled(cfg, s, a)
    ensures History(Apply(cfg, s, a).exam, x) == History(s.exam, x) + AcceptedSaves(StepTrace(cfg, s, a), x)
  {
    FirstAtomicCall(cfg, s, a);
    CallSaves(cfg, s.exam, StepTrace(cfg, s, a), Apply(cfg, s, a).exam, x);
  }

  lemma CallSaves(cfg: Config, e: Exam, head: seq<Atomic>, e': Exam, x: string)
    requires TablesOk(cfg, e) && if head == [] then e' == e else |head| == 1 && Step(cfg, e, head[0].ev, e')
    ensures History(e', x) == History(e, x) + AcceptedSaves(head, x)
  {
    if head != [] {
      StepSaves(cfg, e, head[0].ev, e', x);
      assert head[1..] == [];
    }
  }

  /** What a session's log gains in a run is exactly the accepted saves of the run, in order. */
  lemma {:induction false} HistoryIsAcceptedSaves(cfg: Config, s: State, run: seq<Action>, x: string)
    requires Inv(cfg, s) && Clocked(s) && IsRun(cfg, s, run)
    ensures History(After(cfg, s, run).exam, x) == History(s.exam, x) + AcceptedSaves(Trace(cfg, s, run), x)
    decreases |run|
  {
    if run != [] {
      var s' := Apply(cfg, s, run[0]);
      ActionKeepsInv(cfg, s, run[0]);
      ActionKeepsClocked(cfg, s, run[0]);
      ActionSaves(cfg, s, run[0], x);
      HistoryIsAcceptedSaves(cfg, s', run[1..], x);
      HistoryAdds(
        History(s.exam, x), StepTrace(cfg, s, run[0]), Trace(cfg, s', run[1..]), x,
        History(s'.exam, x), History(After(cfg, s, run).exam, x));
    } else {
      assert History(s.exam, x) + [] == History(s.exam, x);
    }
  }

  lemma HistoryAdds(before: seq<Answer>, head: seq<Atomic>, rest: seq<Atomic>, x: string, mid: seq<Answer>,
      after: seq<Answer>)
    requires mid == before + AcceptedSaves(head, x) && after == mid + AcceptedSaves(rest, x)
    ensures after == before + AcceptedSaves(head + rest, x)
  {
    AcceptedSavesSum(head, rest, x);
  }

  /**
   After any interleaving, a session that was created in the run holds, for every item, the data of
   the last SaveResponse call for it that was accepted, and no other item; a session that was there
   before holds those on top of what it held. In a session that is not completed no row bears a mark,
   and every answered item belongs to the delivery's test.
   */
  lemma RowsAreLastAcceptedAnswers(cfg: Config, s: State, run: seq<Action>, x: string)
    requires Init(cfg, s) && IsRun(cfg, s, run) && x in After(cfg, s, run).exam.sessions
    ensures var e := After(cfg, s, run).exam;
            && Data(Rows(e, x)) == Replay(History(s.exam, x) + AcceptedSaves(Trace(cfg, s, run), x))
            && (x !in s.exam.sessions ==> Data(Rows(e, x)) == Replay(AcceptedSaves(Trace(cfg, s, run), x)))
            && (forall k | k in Rows(e, x) :: FindTestItem(cfg, e.sessions[x].deliveryID, k).Some?)
            && (e.sessions[x].status != Completed ==>
                  forall k | k in Rows(e, x) :: Rows(e, x)[k].score == 0.0 && !Rows(e, x)[k].correct)
  {
    RunKeepsInv(cfg, s, run);
    HistoryIsAcceptedSaves(cfg, s, run, x);
    RowsAfterSaves(cfg, s.exam, After(cfg, s, run).exam, x, AcceptedSaves(Trace(cfg, s, run), x));
  }

  lemma RowsAfterSaves(cfg: Config, e: Exam, e': Exam, x: string, saves: seq<Answer>)
    requires TablesOk(cfg, e) && TablesOk(cfg, e') && x in e'.sessions && History(e', x) == History(e, x) + saves
    ensures Data(Rows(e', x)) == Replay(History(e, x) + saves)
    ensures x !in e.sessions ==> Data(Rows(e', x)) == Replay(saves)
    ensures forall k | k in Rows(e', x) :: FindTestItem(cfg, e'.sessions[x].deliveryID, k).Some?
    ensures e'.sessions[x].status != Completed ==>
              forall k | k in Rows(e', x) :: Rows(e', x)[k].score == 0.0 && !Rows(e', x)[k].correct
  {
    RowsReplayHistory(cfg, e', x);
    NoHistoryBefore(cfg, e, x);
    assert [] + saves == saves;
  }

  lemma NoHistoryBefore(cfg: Config, e: Exam, x: string)
    requires AnswersOk(cfg, e)
    ensures x !in e.sessions ==> History(e, x) == []
  {
  }

  lemma RowsReplayHistory(cfg: Config, e: Exam, x: string)
    requires TablesOk(cfg, e) && x in e.sessions
    ensures Data(Rows(e, x)) == Replay(History(e, x))
    ensures forall k | k in Rows(e, x) :: FindTestItem(cfg, e.sessions[x].deliveryID, k).Some?
    ensures e.sessions[x].status != Completed ==>
              forall k | k in Rows(e, x) :: Rows(e, x)[k].score == 0.0 && !Rows(e, x)[k].correct
  {
    assert RowsOk(cfg, e.sessions[x], Rows(e, x), e.log[x]);
  }

  // What a list of answers leaves for an item is the data of its last answer to it.
  lemma {:induction false} ReplayIsLast(log: seq<Answer>, i: nat)
    requires i < |log| && forall j | i < j < |log| :: log[j].itemID != log[i].itemID
    ensures log[i].itemID in Replay(log) && Replay(log)[log[i].itemID] == log[i].data
  {
    var last := |log| - 1;
    if i < last {
      assert forall j | i < j < last :: log[..last][j].itemID != log[i].itemID;
      ReplayIsLast(log[..last], i);
      assert log[last].itemID != log[i].itemID;
    }
  }
}
