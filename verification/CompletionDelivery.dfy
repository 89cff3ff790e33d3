/**
 Submissions and webhook delivery as one machine: a completing submission's announcement is the only
 thing that dispatches an event.
 */
module CompletionDelivery {
  import opened Assessment
  import Protocol = SessionProtocol
  import Theorems = SessionTheorems
  import Notices = SessionNotices
  import Hooks = WebhookQueue

  datatype State = State(session: Protocol.State, hooks: Hooks.State)

  datatype Action =
    | Session(a: Protocol.Action)
    | Hook(b: Hooks.Action)          // any step of the queue but a dispatch

  function Dispatched(t: nat, s: Protocol.State): Hooks.Action
    requires t in s.txns && s.txns[t].call.SubmitCall?
  {
    Hooks.Dispatch(Hooks.COMPLETED_EVENT, s.txns[t].call.sessionID)
  }

  ghost predicate Enabled(cfg: Config, s: State, a: Action) {
    match a
    case Session(a) => Protocol.Enabled(cfg, s.session, a)
    case Hook(b) => !b.Dispatch? && Hooks.Enabled(s.hooks, b)
  }

  ghost function Apply(cfg: Config, s: State, a: Action): State
    requires Enabled(cfg, s, a)
  {
    match a
    case Session(a) =>
      State(
        Protocol.Apply(cfg, s.session, a),
        if a.Notify? then Hooks.Apply(s.hooks, Dispatched(a.t, s.session)) else s.hooks)
    case Hook(b) => s.(hooks := Hooks.Apply(s.hooks, b))
  }

  function SessionIDs(jobs: seq<Hooks.Job>): seq<string> {
    seq(|jobs|, i requires 0 <= i < |jobs| => jobs[i].sessionID)
  }

  predicate EventsNamed(jobs: seq<Hooks.Job>) {
    forall i | 0 <= i < |jobs| :: jobs[i].event == "session.completed"
  }

  ghost predicate Inv(cfg: Config, s: State) {
    && Protocol.Inv(cfg, s.session) && Notices.RecordsOk(s.session)
    && Hooks.Inv(s.hooks) && SessionIDs(s.hooks.dispatched) == s.session.notices && EventsNamed(s.hooks.dispatched)
  }

  ghost predicate Init(cfg: Config, s: State) {
    Protocol.Init(cfg, s.session) && Hooks.Init(s.hooks)
  }

  // What a step does to the events dispatched is what it does to the notices.
  lemma ActionKeepsMatch(cfg: Config, s: State, a: Action)
    requires SessionIDs(s.hooks.dispatched) == s.session.notices && EventsNamed(s.hooks.dispatched)
    requires Enabled(cfg, s, a)
    ensures var s' := Apply(cfg, s, a);
            SessionIDs(s'.hooks.dispatched) == s'.session.notices && EventsNamed(s'.hooks.dispatched)
  {
    match a
    case Session(a) => NotifyMatches(cfg, s, a);
    case Hook(b) => HookDispatchesNothing(s.hooks, b);
  }

  lemma HookDispatchesNothing(hooks: Hooks.State, b: Hooks.Action)
    requires !b.Dispatch? && Hooks.Enabled(hooks, b)
    ensures Hooks.Apply(hooks, b).dispatched == hooks.dispatched
  {
  }

  lemma NotifyMatches(cfg: Config, s: State, a: Protocol.Action)
    requires SessionIDs(s.hooks.dispatched) == s.session.notices && EventsNamed(s.hooks.dispatched)
    requires Protocol.Enabled(cfg, s.session, a)
    ensures var s' := Apply(cfg, s, Session(a));
            SessionIDs(s'.hooks.dispatched) == s'.session.notices && EventsNamed(s'.hooks.dispatched)
  {
  }

  lemma SessionActionKeepsInv(cfg: Config, s: State, a: Protocol.Action, x: string)
    requires Inv(cfg, s) && Protocol.Enabled(cfg, s.session, a)
    ensures Inv(cfg, Apply(cfg, s, Session(a))) && Notices.Records(s.session, Apply(cfg, s, Session(a)).session, x)
  {
    Theorems.ActionKeepsInv(cfg, s.session, a);
    Notices.ActionKeepsRecords(cfg, s.session, a);
    Notices.ActionRecords(cfg, s.session, a, x);
    if a.Notify? {
      Hooks.ActionKeepsInv(s.hooks, Dispatched(a.t, s.session));
    }
    ActionKeepsMatch(cfg, s, Session(a));
  }

  lemma HookActionKeepsInv(cfg: Config, s: State, b: Hooks.Action)
    requires Inv(cfg, s) && !b.Dispatch? && Hooks.Enabled(s.hooks, b)
    ensures Inv(cfg, Apply(cfg, s, Hook(b)))
  {
    Hooks.ActionKeepsInv(s.hooks, b);
    ActionKeepsMatch(cfg, s, Hook(b));
  }

  ghost predicate IsRun(cfg: Config, s: State, run: seq<Action>)
    decreases |run|
  {
    run != [] ==> Enabled(cfg, s, run[0]) && IsRun(cfg, Apply(cfg, s, run[0]), run[1..])
  }

  ghost function After(cfg: Config, s: State, run: seq<Action>): State
    requires IsRun(cfg, s, run)
    decreases |run|
  {
    if run == [] then s else After(cfg, Apply(cfg, s, run[0]), run[1..])
  }

  lemma {:induction false} RunKeepsInv(cfg: Config, s: State, run: seq<Action>, x: string)
    requires Inv(cfg, s) && IsRun(cfg, s, run)
    ensures Inv(cfg, After(cfg, s, run)) && Notices.Records(s.session, After(cfg, s, run).session, x)
    decreases |run|
  {
    if run != [] {
      var s' := Apply(cfg, s, run[0]);
      match run[0] {
        case Session(a) => SessionActionKeepsInv(cfg, s, a, x);
        case Hook(b) => HookActionKeepsInv(cfg, s, b);
      }
      RunKeepsInv(cfg, s', run[1..], x);
      Notices.RecordsTransitive(s.session, s'.session, After(cfg, s, run).session, x);
    }
  }

  lemma InitHoldsInv(cfg: Config, s: State)
    requires Init(cfg, s)
    ensures Inv(cfg, s)
  {
    Hooks.InitHoldsInv(s.hooks);
  }

  lemma NoticesApart(cfg: Config, s: State)
    requires Inv(cfg, s)
    ensures Hooks.DistinctSessions(s.hooks.dispatched)
    ensures forall i | 0 <= i < |s.hooks.dispatched| ::
        Notices.IsCompleted(s.session.exam, s.hooks.dispatched[i].sessionID)
  {
    var d := s.hooks.dispatched;
    forall i | 0 <= i < |d|
      ensures d[i].sessionID == s.session.notices[i] && Notices.IsCompleted(s.session.exam, d[i].sessionID)
    {
      assert SessionIDs(d)[i] == d[i].sessionID;
      Notices.RecordedIsAnnounced(s.session, s.session.notices[i]);
    }
  }

  // Only completed sessions were sent, and none of them twice to a subscription.
  ghost predicate DeliveredAtMostOnce(s: State) {
    && Hooks.SentOnce(s.hooks)
    && forall i | 0 <= i < |s.hooks.sends| ::
         && s.hooks.sends[i].0 < |s.hooks.dispatched|
         && Notices.IsCompleted(s.session.exam, s.hooks.dispatched[s.hooks.sends[i].0].sessionID)
  }

  lemma InvDelivers(cfg: Config, s: State)
    requires Inv(cfg, s)
    ensures DeliveredAtMostOnce(s)
  {
    NoticesApart(cfg, s);
    Hooks.DistinctSessionsSentOnce(s.hooks);
  }

  lemma AnnouncedIsDispatched(cfg: Config, s: Protocol.State, s': State, x: string)
    requires Inv(cfg, s') && Notices.Records(s, s'.session, x) && s.completedBy == map[]
    requires forall t | t in s'.session.txns :: !Protocol.ToAnnounce(s'.session.txns[t])
    ensures x in SessionIDs(s'.hooks.dispatched) <==>
              Notices.IsCompleted(s'.session.exam, x) && !Notices.IsCompleted(s.exam, x)
  {
    Notices.RecordedIsAnnounced(s'.session, x);
  }

  /**
   Whatever the interleaving of submissions, dispatchers and workers: only completed sessions are sent,
   none of them twice to a subscription, and each request that has ended made one log entry; once
   every completion was announced, the sessions dispatched are exactly those completed in the run.
   */
  lemma CompletionsAreDeliveredAtMostOnce(cfg: Config, s: State, run: seq<Action>, x: string)
    requires Init(cfg, s) && IsRun(cfg, s, run)
    ensures DeliveredAtMostOnce(After(cfg, s, run)) && EventsNamed(After(cfg, s, run).hooks.dispatched)
    ensures var s' := After(cfg, s, run);
            (forall t | t in s'.session.txns :: !Protocol.ToAnnounce(s'.session.txns[t])) ==>
              (x in SessionIDs(s'.hooks.dispatched) <==>
                 Notices.IsCompleted(s'.session.exam, x) && !Notices.IsCompleted(s.session.exam, x))
  {
    InitHoldsInv(cfg, s);
    RunKeepsInv(cfg, s, run, x);
    var s' := After(cfg, s, run);
    InvDelivers(cfg, s');
    if forall t | t in s'.session.txns :: !Protocol.ToAnnounce(s'.session.txns[t]) {
      AnnouncedIsDispatched(cfg, s.session, s', x);
    }
  }
}
