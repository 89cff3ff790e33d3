/**
 A whole run of transactions is a run of atomic calls, every outcome that a call returns is that of
 its one atomic call, and the transactions never deadlock.
 */
module SessionLinearization {
  import opened Wrappers
  import opened Assessment
  import opened SessionSpec
  import opened SessionProtocol
  import opened SessionRefinement
  import opened SessionTheorems

  // ---- clock samples ----

  // What the transaction has sampled of the clock lies between its opening and `clock`.
  predicate SampledSince(txn: Txn, clock: int) {
    && txn.openedAt <= clock
    && match txn.phase
       case Eligible(now) => txn.openedAt <= now <= clock
       case NoneOpen(now) => txn.openedAt <= now <= clock
       case Counted(now, _) => txn.openedAt <= now <= clock
       case Inserting(_, row) => row.startedAt.Some? && txn.openedAt <= row.startedAt.value <= clock
       case Found(now, _, _) => txn.openedAt <= now <= clock
       case Beginning(_, row) => row.startedAt.Some? && txn.openedAt <= row.startedAt.value <= clock
       case InTime(_, checkedAt) => txn.openedAt <= checkedAt <= clock
       case ResponseWritten(checkedAt, response) => txn.openedAt <= checkedAt <= response.respondedAt <= clock
       case Completing(row, _) => row.finishedAt.Some? && txn.openedAt <= row.finishedAt.value <= clock
       case _ => true
  }

  predicate Clocked(s: State) {
    forall t | t in s.txns :: SampledSince(s.txns[t], s.clock)
  }

  // The statement's samples, and those of the atomic call when it is one, are within the call.
  ghost predicate SamplesWithin(txn: Txn, clock: int, next: Next) {
    && SampledSince(txn.(phase := PhaseAfter(next)), clock)
    && (Effect(clock, txn, next).Some? ==>
          var ev := Effect(clock, txn, next).value; txn.openedAt <= ev.checkedAt <= ev.now <= clock)
  }

  lemma StartSamples(cfg: Config, e: Exam, clock: int, txn: Txn, pick: string)
    requires txn.call.StartCall? && Runs(txn) && ChoiceOk(e, txn, pick) && SampledSince(txn, clock)
    ensures SamplesWithin(txn, clock, StartNext(cfg, e, clock, txn, pick))
  {
  }

  lemma SaveSamples(cfg: Config, e: Exam, clock: int, txn: Txn)
    requires txn.call.SaveCall? && Runs(txn) && SampledSince(txn, clock)
    ensures SamplesWithin(txn, clock, SaveNext(cfg, e, clock, txn))
  {
  }

  lemma SubmitSamples(cfg: Config, e: Exam, clock: int, txn: Txn, pick: string)
    requires txn.call.SubmitCall? && Runs(txn) && ChoiceOk(e, txn, pick) && SampledSince(txn, clock)
    ensures SamplesWithin(txn, clock, SubmitNext(cfg, e, clock, txn, pick))
  {
  }

  lemma StatementSamples(cfg: Config, e: Exam, clock: int, txn: Txn, pick: string)
    requires Runs(txn) && ChoiceOk(e, txn, pick) && SampledSince(txn, clock)
    ensures SamplesWithin(txn, clock, NextOf(cfg, e, clock, txn, pick))
  {
    match txn.call
    case StartCall(_, _) => StartSamples(cfg, e, clock, txn, pick);
    case SaveCall(_, _, _, _) => SaveSamples(cfg, e, clock, txn);
    case SubmitCall(_, _) => SubmitSamples(cfg, e, clock, txn, pick);
  }

  lemma ActionKeepsClocked(cfg: Config, s: State, a: Action)
    requires Clocked(s) && Enabled(cfg, s, a)
    ensures Clocked(Apply(cfg, s, a)) && s.clock <= Apply(cfg, s, a).clock
  {
    if a.Advance? {
      StatementSamples(cfg, s.exam, s.clock, s.txns[a.t], a.pick);
    }
  }

  // ---- linearization ----

  // An atomic call: whose it is, when that transaction was opened, and when the call took effect.
  datatype Atomic = Atomic(t: nat, ev: Event, openedAt: int, at: int)

  // The atomic calls of a run, in order.
  function Trace(cfg: Config, s: State, run: seq<Action>): seq<Atomic>
    requires IsRun(cfg, s, run)
    decreases |run|
  {
    if run == [] then []
    else StepTrace(cfg, s, run[0]) + Trace(cfg, Apply(cfg, s, run[0]), run[1..])
  }

  function StepTrace(cfg: Config, s: State, a: Action): seq<Atomic>
    requires Enabled(cfg, s, a)
  {
    if !a.Advance? then []
    else
      match Effect(s.clock, s.txns[a.t], NextOf(cfg, s.exam, s.clock, s.txns[a.t], a.pick))
      case Some(ev) => [Atomic(a.t, ev, s.txns[a.t].openedAt, s.clock)]
      case None => []
  }

  // Atomic calls, one after the other, that lead from e to e'.
  ghost predicate AtomicRun(cfg: Config, e: Exam, trace: seq<Atomic>, e': Exam)
    decreases |trace|
  {
    if trace == [] then e == e'
    else exists mid :: Step(cfg, e, trace[0].ev, mid) && AtomicRun(cfg, mid, trace[1..], e')
  }

  // The calls take effect one after the other between the two times, and what a call samples of the
  // clock it samples between its opening and its effect.
  predicate Timed(trace: seq<Atomic>, from: int, to: int)
    decreases |trace|
  {
    if trace == [] then from <= to
    else
      && from <= trace[0].at <= to
      && trace[0].openedAt <= trace[0].ev.checkedAt <= trace[0].ev.now <= trace[0].at
      && Timed(trace[1..], trace[0].at, to)
  }

  lemma TimedFromEarlier(trace: seq<Atomic>, from: int, later: int, to: int)
    requires from <= later && Timed(trace, later, to)
    ensures Timed(trace, from, to)
  {
  }

  /**
   Every interleaving leads to tables that its atomic calls, made one after the other, lead to; each
   call uses times that its transaction saw between its opening and its effect.
   */
  lemma {:induction false} RunIsAtomicRun(cfg: Config, s: State, run: seq<Action>)
    requires Inv(cfg, s) && Clocked(s) && IsRun(cfg, s, run)
    ensures AtomicRun(cfg, s.exam, Trace(cfg, s, run), After(cfg, s, run).exam)
    ensures Timed(Trace(cfg, s, run), s.clock, After(cfg, s, run).clock)
    decreases |run|
  {
    if run != [] {
      var s' := Apply(cfg, s, run[0]);
      ActionKeepsInv(cfg, s, run[0]);
      ActionKeepsClocked(cfg, s, run[0]);
      RunIsAtomicRun(cfg, s', run[1..]);
      var head, rest := StepTrace(cfg, s, run[0]), Trace(cfg, s', run[1..]);
      FirstAtomicCall(cfg, s, run[0]);
      TimedFromEarlier(rest, s.clock, s'.clock, After(cfg, s, run).clock);
      if head == [] {
        assert head + rest == rest;
      } else {
        assert (head + rest)[0] == head[0] && (head + rest)[1..] == rest;
      }
    }
  }

  // An action is at most one atomic call, at the clock of the action.
  lemma FirstAtomicCall(cfg: Config, s: State, a: Action)
    requires Inv(cfg, s) && Clocked(s) && Enabled(cfg, s, a)
    ensures var head, s' := StepTrace(cfg, s, a), Apply(cfg, s, a);
            if head == [] then s'.exam == s.exam
            else
              && |head| == 1 && Step(cfg, s.exam, head[0].ev, s'.exam)
              && head[0].openedAt <= head[0].ev.checkedAt <= head[0].ev.now <= head[0].at == s.clock == s'.clock
  {
    if a.Advance? {
      StatementRefines(cfg, s, a.t, a.pick);
      StatementSamples(cfg, s.exam, s.clock, s.txns[a.t], a.pick);
    }
  }

  // The effects of one transaction in a trace.
  function EffectsOf(trace: seq<Atomic>, t: nat): seq<Event> {
    if trace == [] then []
    else if trace[0].t == t then [trace[0].ev] + EffectsOf(trace[1..], t)
    else EffectsOf(trace[1..], t)
  }

  function DecidedIn(s: State, t: nat): Option<Outcome> {
    if t in s.txns then Decided(s.txns[t]) else None
  }

  predicate ClosedIn(s: State, t: nat) {
    t in s.txns && s.txns[t].phase.Closed?
  }

  lemma EffectsOfSum(xs: seq<Atomic>, ys: seq<Atomic>, t: nat)
    ensures EffectsOf(xs + ys, t) == EffectsOf(xs, t) + EffectsOf(ys, t)
  {
    if xs == [] {
      assert xs + ys == ys;
    } else {
      EffectsOfSum(xs[1..], ys, t);
      assert (xs + ys)[1..] == xs[1..] + ys;
    }
  }

  // An action either settles t, with one effect that bears the call and the outcome; or it has no
  // effect of t and leaves t's outcome open, as it was, or lost to the database.
  lemma ActionAndOutcome(cfg: Config, s: State, a: Action, t: nat)
    requires Enabled(cfg, s, a)
    ensures var s', effects := Apply(cfg, s, a), EffectsOf(StepTrace(cfg, s, a), t);
            if DecidedIn(s, t).None? && DecidedIn(s', t).Some? then
              && !ClosedIn(s, t)
              && |effects| == 1 && effects[0].outcome == DecidedIn(s', t).value && effects[0].call == s'.txns[t].call
            else
              effects == [] && (DecidedIn(s', t).None? || DecidedIn(s', t) == DecidedIn(s, t))
    ensures t in s.txns ==> t in Apply(cfg, s, a).txns && Apply(cfg, s, a).txns[t].call == s.txns[t].call
    ensures ClosedIn(s, t) ==> ClosedIn(Apply(cfg, s, a), t) && DecidedIn(Apply(cfg, s, a), t) == DecidedIn(s, t)
    ensures DecidedIn(s, t).Some? && DecidedIn(Apply(cfg, s, a), t).None? ==> ClosedIn(Apply(cfg, s, a), t)
  {
  }

  /**
   A call takes effect at most once in a run, between its first statement and its return, and an
   outcome that it returns, other than a database failure, is the outcome of that one atomic call.
   */
  lemma {:induction false} OutcomesAreAtomicOutcomes(cfg: Config, s: State, run: seq<Action>, t: nat)
    requires IsRun(cfg, s, run)
    ensures var s', effects := After(cfg, s, run), EffectsOf(Trace(cfg, s, run), t);
            && |effects| <= 1
            && (ClosedIn(s, t) || DecidedIn(s, t).Some? ==> effects == [])
            && (t in s.txns ==> t in s'.txns && s'.txns[t].call == s.txns[t].call)
            && (ClosedIn(s, t) ==> ClosedIn(s', t) && DecidedIn(s', t) == DecidedIn(s, t))
            && (DecidedIn(s', t).Some? && DecidedIn(s, t).None? ==>
                  |effects| == 1 && effects[0].call == s'.txns[t].call && effects[0].outcome == DecidedIn(s', t).value)
            && (DecidedIn(s', t).Some? && DecidedIn(s, t).Some? ==> DecidedIn(s', t) == DecidedIn(s, t))
    decreases |run|
  {
    if run != [] {
      var s1 := Apply(cfg, s, run[0]);
      ActionAndOutcome(cfg, s, run[0], t);
      OutcomesAreAtomicOutcomes(cfg, s1, run[1..], t);
      EffectsOfSum(StepTrace(cfg, s, run[0]), Trace(cfg, s1, run[1..]), t);
    }
  }

  // ---- progress ----

  lemma {:induction false} LatestOpenExists(e: Exam, among: set<string>)
    returns (x: string)
    requires among != {} && forall y | y in among :: y in e.sessions
    ensures x in among && forall y | y in among :: e.sessions[y].attempt <= e.sessions[x].attempt
  {
    x :| x in among;
    if among != {x} {
      var best := LatestOpenExists(e, among - {x});
      if e.sessions[x].attempt <= e.sessions[best].attempt {
        x := best;
      }
    }
  }

  lemma {:induction false} LengthBound(ids: set<string>) returns (n: nat)
    ensures forall id | id in ids :: |id| <= n
  {
    if ids == {} {
      n := 0;
    } else {
      var id :| id in ids;
      n := LengthBound(ids - {id});
      n := if n < |id| then |id| else n;
    }
  }

  lemma FreshId(ids: set<string>) returns (id: string)
    ensures id !in ids
  {
    var n := LengthBound(ids);
    id := seq(n + 1, _ => 'x');
  }

  // The free choice of a statement can always be made.
  lemma ChoiceExists(s: State, t: nat) returns (pick: string)
    requires t in s.txns && Runs(s.txns[t])
    ensures ChoiceOk(s.exam, s.txns[t], pick)
    ensures s.txns[t].phase.Counted? ==> pick !in s.idOwner
  {
    var txn := s.txns[t];
    pick := FreshId(s.idOwner.Keys);
    if txn.call.StartCall? && txn.phase.Eligible?
        && OpenSessions(s.exam, DeliveryOf(txn.call), UserOf(txn.call)) != {} {
      var d, u := DeliveryOf(txn.call), UserOf(txn.call);
      pick := LatestOpenExists(s.exam, OpenSessions(s.exam, d, u));
    } else if txn.phase.Marking? && txn.phase.todo != map[] {
      pick :| pick in txn.phase.todo;
    }
  }

  // Who holds a session lock waits for nothing.
  lemma SessionHolderMoves(cfg: Config, s: State, t: nat) returns (pick: string)
    requires t in s.txns && Runs(s.txns[t]) && SessionHeld(s.txns[t]).Some?
    ensures Enabled(cfg, s, Advance(t, pick))
  {
    pick := ChoiceExists(s, t);
  }

  // Locks are held by transactions that run.
  ghost predicate HoldersRun(s: State) {
    LocksOk(s) && forall t | t in s.txns :: s.txns[t].phase.Closed? || Runs(s.txns[t])
  }

  lemma InvHoldersRun(cfg: Config, s: State)
    requires Inv(cfg, s)
    ensures HoldersRun(s)
  {
    forall t | t in s.txns ensures s.txns[t].phase.Closed? || Runs(s.txns[t]) {
      assert TxnOk(cfg, s.exam, s.idOwner, s.completedBy, t, s.txns[t]);
    }
  }

  // Who does not wait for a delivery lock moves, or waits for the holder of a session lock, who moves.
  lemma MovesOrHolderMoves(cfg: Config, s: State, t: nat) returns (t': nat, pick: string)
    requires HoldersRun(s) && t in s.txns && Runs(s.txns[t])
    requires s.txns[t].call.StartCall? ==> !s.txns[t].phase.Waiting?
    ensures Enabled(cfg, s, Advance(t', pick))
  {
    t' := t;
    pick := ChoiceExists(s, t);
    var next := NextOf(cfg, s.exam, s.clock, s.txns[t], pick);
    if next.LockSession? && next.sessionID in s.sessionLocks {
      t' := HolderRuns(s, next.sessionID);
      pick := SessionHolderMoves(cfg, s, t');
    } else {
      FreeToMove(cfg, s.exam, s.clock, s.txns[t], pick);
    }
  }

  lemma HolderRuns(s: State, x: string) returns (t: nat)
    requires HoldersRun(s) && x in s.sessionLocks
    ensures t in s.txns && Runs(s.txns[t]) && SessionHeld(s.txns[t]).Some?
  {
    t := s.sessionLocks[x];
  }

  // A statement that waits for no delivery lock waits for a session lock, or draws a name, or for nothing.
  lemma FreeToMove(cfg: Config, e: Exam, clock: int, txn: Txn, pick: string)
    requires Runs(txn) && ChoiceOk(e, txn, pick) && (txn.call.StartCall? ==> !txn.phase.Waiting?)
    ensures !NextOf(cfg, e, clock, txn, pick).LockDelivery?
    ensures NextOf(cfg, e, clock, txn, pick).DrawId? ==>
              txn.phase.Counted? && NextOf(cfg, e, clock, txn, pick).id == pick
  {
  }

  lemma SomebodyMoves(cfg: Config, s: State, t: nat) returns (t': nat, pick: string)
    requires HoldersRun(s) && t in s.txns && Runs(s.txns[t])
    ensures Enabled(cfg, s, Advance(t', pick))
  {
    if s.txns[t].call.StartCall? && s.txns[t].phase.Waiting? {
      t', pick := t, "";
      if DeliveryOf(s.txns[t].call) in s.deliveryLocks {
        t', pick := MovesOrHolderMoves(cfg, s, s.deliveryLocks[DeliveryOf(s.txns[t].call)]);
      }
    } else {
      t', pick := MovesOrHolderMoves(cfg, s, t);
    }
  }

  /** The transactions never deadlock: while one is open, some transaction can do its next statement. */
  lemma NeverDeadlocked(cfg: Config, s: State, run: seq<Action>, t: nat)
    returns (t': nat, pick: string)
    requires Init(cfg, s) && IsRun(cfg, s, run)
    requires t in After(cfg, s, run).txns && Runs(After(cfg, s, run).txns[t])
    ensures Enabled(cfg, After(cfg, s, run), Advance(t', pick))
  {
    RunKeepsInv(cfg, s, run);
    InvHoldersRun(cfg, After(cfg, s, run));
    t', pick := SomebodyMoves(cfg, After(cfg, s, run), t);
  }
}
