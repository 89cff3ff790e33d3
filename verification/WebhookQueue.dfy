/**
 Webhook delivery: a lossy bounded queue, several workers, and one signed request per event and
 subscription. An HTTP exchange is a result from outside.
 */
module WebhookQueue {
  import Text

  const CAPACITY := 100
  const COMPLETED_EVENT := "session.completed"

  // An event, numbered in the order of dispatch, about a session.
  datatype Job = Job(number: nat, event: string, sessionID: string)

  datatype Subscription = Subscription(event: string, isActive: bool)

  // How one request to a subscriber ends.
  datatype Exchange = UrlRejected | SecretUnreadable | RequestInvalid | ExchangeFailed | Answered(statusCode: int)

  datatype LogEntry = LogEntry(job: nat, configID: string, statusCode: int, isSuccess: bool)

  datatype Work =
    | Idle
    | Loading(job: Job)                              // before the subscriptions are read
    | Pending(job: Job, rest: seq<string>)           // subscriptions still to be served
    | Sending(job: Job, configID: string, rest: seq<string>)

  datatype State = State(
    dispatched: seq<Job>, dropped: seq<Job>, queue: seq<Job>, finished: seq<Job>,
    workers: map<nat, Work>, configs: map<string, Subscription>,
    sends: seq<(nat, string)>, logs: seq<LogEntry>)

  datatype Action =
    | Dispatch(event: string, sessionID: string)
    | Register(configID: string, event: string)
    | Take(w: nat)
    | LoadFails(w: nat)                     // the query or the encoding of the event failed
    | Load(w: nat, order: seq<string>)      // the query returned these subscriptions
    | Send(w: nat)
    | SendEnds(w: nat, exchange: Exchange)
    | Finish(w: nat)

  // The one log entry that a request makes, however it ends.
  function Entry(job: Job, configID: string, exchange: Exchange): LogEntry {
    match exchange
    case Answered(code) => LogEntry(job.number, configID, code, 200 <= code < 300)
    case _ => LogEntry(job.number, configID, 0, false)
  }

  predicate Listed(configs: map<string, Subscription>, event: string, configID: string) {
    configID in configs && configs[configID] == Subscription(event, true)
  }

  // Every active subscription to the event, once each, in any order.
  ghost predicate QueryResult(configs: map<string, Subscription>, event: string, order: seq<string>) {
    && (forall c :: c in order <==> Listed(configs, event, c))
    && NoRepeats(order)
  }

  ghost predicate NoRepeats<T>(s: seq<T>) {
    forall i, j | 0 <= i < j < |s| :: s[i] != s[j]
  }

  ghost predicate Enabled(s: State, a: Action) {
    match a
    case Dispatch(_, _) => true
    case Register(configID, event) => configID !in s.configs && event == COMPLETED_EVENT
    case Take(w) => w in s.workers && s.workers[w].Idle? && s.queue != []
    case LoadFails(w) => w in s.workers && s.workers[w].Loading?
    case Load(w, order) => w in s.workers && s.workers[w].Loading?
        && QueryResult(s.configs, s.workers[w].job.event, order)
    case Send(w) => w in s.workers && s.workers[w].Pending? && s.workers[w].rest != []
    case SendEnds(w, _) => w in s.workers && s.workers[w].Sending?
    case Finish(w) => w in s.workers && s.workers[w].Pending? && s.workers[w].rest == []
  }

  function Apply(s: State, a: Action): State
    requires Enabled(s, a)
  {
    match a
    case Dispatch(event, sessionID) =>
      var job := Job(|s.dispatched|, event, sessionID);
      if |s.queue| < CAPACITY
      then s.(dispatched := s.dispatched + [job], queue := s.queue + [job])
      else s.(dispatched := s.dispatched + [job], dropped := s.dropped + [job])
    case Register(configID, event) => s.(configs := s.configs[configID := Subscription(event, true)])
    case Take(w) => s.(queue := s.queue[1..], workers := s.workers[w := Loading(s.queue[0])])
    case LoadFails(w) => s.(workers := s.workers[w := Idle], finished := s.finished + [s.workers[w].job])
    case Load(w, order) => s.(workers := s.workers[w := Pending(s.workers[w].job, order)])
    case Send(w) =>
      var work := s.workers[w];
      s.(workers := s.workers[w := Sending(work.job, work.rest[0], work.rest[1..])],
         sends := s.sends + [(work.job.number, work.rest[0])])
    case SendEnds(w, exchange) =>
      var work := s.workers[w];
      s.(workers := s.workers[w := Pending(work.job, work.rest)],
         logs := s.logs + [Entry(work.job, work.configID, exchange)])
    case Finish(w) => s.(workers := s.workers[w := Idle], finished := s.finished + [s.workers[w].job])
  }

  // ---- conservation ----

  function Busy(workers: map<nat, Work>): set<nat> {
    set w | w in workers && !workers[w].Idle?
  }

  predicate Holds(work: Work, job: Job) {
    !work.Idle? && work.job == job
  }

  function HoldersOf(workers: map<nat, Work>, job: Job): set<nat> {
    set w | w in workers && Holds(workers[w], job)
  }

  // In how many places an event is, and how often.
  function Places(s: State, job: Job): nat {
    multiset(s.dropped)[job] + multiset(s.queue)[job] + |HoldersOf(s.workers, job)| + multiset(s.finished)[job]
  }

  // Every event is dropped, queued, held by a worker or finished as often as it was dispatched, and
  // the queue keeps its bound.
  ghost predicate Conserved(s: State) {
    && (forall job :: Places(s, job) == multiset(s.dispatched)[job])
    && |s.queue| <= CAPACITY
  }

  // The holders of an event when a worker turns to other work.
  lemma HoldersAfter(workers: map<nat, Work>, w: nat, work: Work, job: Job)
    requires w in workers
    ensures var before, after := HoldersOf(workers, job), HoldersOf(workers[w := work], job);
            |after| == |before| - (if Holds(workers[w], job) then 1 else 0) + (if Holds(work, job) then 1 else 0)
  {
    var before, after := HoldersOf(workers, job), HoldersOf(workers[w := work], job);
    var others := before - {w};
    assert before == if Holds(workers[w], job) then others + {w} else others;
    assert after == if Holds(work, job) then others + {w} else others;
  }

  lemma CountOfMore(jobs: seq<Job>, last: Job, job: Job)
    ensures multiset(jobs + [last])[job] == multiset(jobs)[job] + if last == job then 1 else 0
  {
  }

  // What one action does to the places of one event.
  lemma ActionMovesEvent(s: State, a: Action, job: Job)
    requires Enabled(s, a)
    ensures var s' := Apply(s, a);
            Places(s', job) - Places(s, job) == multiset(s'.dispatched)[job] - multiset(s.dispatched)[job]
  {
    match a
    case Dispatch(event, sessionID) =>
      var last := Job(|s.dispatched|, event, sessionID);
      CountOfMore(s.dispatched, last, job);
      CountOfMore(s.queue, last, job);
      CountOfMore(s.dropped, last, job);
    case Register(_, _) =>
    case Take(w) =>
      Text.CountFromFirst(s.queue, job);
      HoldersAfter(s.workers, w, Loading(s.queue[0]), job);
    case LoadFails(w) => EndMovesEvent(s, w, job);
    case Finish(w) => EndMovesEvent(s, w, job);
    case Load(w, order) => HoldersAfter(s.workers, w, Pending(s.workers[w].job, order), job);
    case Send(w) =>
      var work := s.workers[w];
      HoldersAfter(s.workers, w, Sending(work.job, work.rest[0], work.rest[1..]), job);
    case SendEnds(w, _) => HoldersAfter(s.workers, w, Pending(s.workers[w].job, s.workers[w].rest), job);
  }

  lemma EndMovesEvent(s: State, w: nat, job: Job)
    requires w in s.workers && !s.workers[w].Idle?
    ensures var s' := s.(workers := s.workers[w := Idle], finished := s.finished + [s.workers[w].job]);
            Places(s', job) == Places(s, job)
  {
    CountOfMore(s.finished, s.workers[w].job, job);
    HoldersAfter(s.workers, w, Idle, job);
  }

  lemma ActionKeepsConserved(s: State, a: Action)
    requires Conserved(s) && Enabled(s, a)
    ensures Conserved(Apply(s, a))
  {
    var s' := Apply(s, a);
    forall job ensures Places(s', job) == multiset(s'.dispatched)[job] {
      ActionMovesEvent(s, a, job);
    }
  }

  lemma {:induction false} NumberedOnce(jobs: seq<Job>, job: Job)
    requires forall i | 0 <= i < |jobs| :: jobs[i].number == i
    ensures multiset(jobs)[job] == if job in jobs then 1 else 0
  {
    if jobs != [] {
      var last := |jobs| - 1;
      NumberedOnce(jobs[..last], job);
      assert jobs == jobs[..last] + [jobs[last]];
      CountOfMore(jobs[..last], jobs[last], job);
      assert jobs[last] !in jobs[..last];
    }
  }

  // ---- every event is in one place ----

  ghost predicate Genuine(s: State, job: Job) {
    job.number < |s.dispatched| && s.dispatched[job.number] == job
  }

  // Every queued event was dispatched after this number.
  ghost predicate Before(number: nat, queue: seq<Job>) {
    forall i | 0 <= i < |queue| :: number < queue[i].number
  }

  // The queue is in the order of dispatch, and whatever left it was dispatched before what is in it;
  // no two workers hold the same event, and a finished event is held by none.
  ghost predicate PlacesOk(s: State) {
    && (forall i | 0 <= i < |s.dispatched| :: s.dispatched[i].number == i)
    && (forall i | 0 <= i < |s.queue| :: Genuine(s, s.queue[i]))
    && (forall i, j | 0 <= i < j < |s.queue| :: s.queue[i].number < s.queue[j].number)
    && (forall w | w in Busy(s.workers) :: Genuine(s, s.workers[w].job) && Before(s.workers[w].job.number, s.queue))
    && (forall v, w | v in Busy(s.workers) && w in Busy(s.workers) && v != w ::
        s.workers[v].job.number != s.workers[w].job.number)
    && (forall i | 0 <= i < |s.finished| :: Genuine(s, s.finished[i]) && Before(s.finished[i].number, s.queue))
    && (forall i, w | 0 <= i < |s.finished| && w in Busy(s.workers) :: s.finished[i].number != s.workers[w].job.number)
  }

  lemma TakeKeepsPlaces(s: State, w: nat)
    requires PlacesOk(s) && Enabled(s, Take(w))
    ensures PlacesOk(Apply(s, Take(w)))
  {
    var s' := Apply(s, Take(w));
    assert forall v | v in Busy(s'.workers) :: v == w || (v in Busy(s.workers) && s'.workers[v] == s.workers[v]);
  }

  lemma DispatchKeepsPlaces(s: State, event: string, sessionID: string)
    requires PlacesOk(s)
    ensures PlacesOk(Apply(s, Dispatch(event, sessionID)))
  {
    var s', last := Apply(s, Dispatch(event, sessionID)), Job(|s.dispatched|, event, sessionID);
    forall i | 0 <= i < |s'.queue| ensures Genuine(s', s'.queue[i]) {
      assert i < |s.queue| ==> Genuine(s, s.queue[i]);
    }
    forall w | w in Busy(s'.workers)
        ensures Genuine(s', s'.workers[w].job) && Before(s'.workers[w].job.number, s'.queue) {
      StillBefore(s, last, s.workers[w].job);
    }
    forall i | 0 <= i < |s'.finished| ensures Genuine(s', s'.finished[i]) && Before(s'.finished[i].number, s'.queue) {
      StillBefore(s, last, s.finished[i]);
    }
  }

  // What was dispatched before everything in the queue was dispatched before a new event, too.
  lemma StillBefore(s: State, last: Job, job: Job)
    requires Genuine(s, job) && Before(job.number, s.queue) && last.number == |s.dispatched|
    ensures Before(job.number, s.queue + [last]) && Before(job.number, s.queue)
  {
  }

  lemma EndKeepsPlaces(s: State, w: nat)
    requires PlacesOk(s) && w in Busy(s.workers)
    ensures PlacesOk(s.(workers := s.workers[w := Idle], finished := s.finished + [s.workers[w].job]))
  {
    assert Busy(s.workers[w := Idle]) == Busy(s.workers) - {w};
  }

  lemma SameJobKeepsPlaces(s: State, s': State, w: nat)
    requires PlacesOk(s) && w in Busy(s.workers)
    requires s'.dispatched == s.dispatched && s'.queue == s.queue && s'.finished == s.finished
    requires w in s'.workers && !s'.workers[w].Idle? && s'.workers[w].job == s.workers[w].job
    requires s'.workers == s.workers[w := s'.workers[w]]
    ensures PlacesOk(s')
  {
    assert Busy(s'.workers) == Busy(s.workers);
  }

  lemma ActionKeepsPlaces(s: State, a: Action)
    requires PlacesOk(s) && Enabled(s, a)
    ensures PlacesOk(Apply(s, a))
  {
    match a
    case Dispatch(event, sessionID) => DispatchKeepsPlaces(s, event, sessionID);
    case Register(_, _) =>
    case Take(w) => TakeKeepsPlaces(s, w);
    case LoadFails(w) => EndKeepsPlaces(s, w);
    case Finish(w) => EndKeepsPlaces(s, w);
    case Load(w, _) => SameJobKeepsPlaces(s, Apply(s, a), w);
    case Send(w) => SameJobKeepsPlaces(s, Apply(s, a), w);
    case SendEnds(w, _) => SameJobKeepsPlaces(s, Apply(s, a), w);
  }

  // ---- one request and one log entry per event and subscription ----

  function Pair(entry: LogEntry): (nat, string) {
    (entry.job, entry.configID)
  }

  // The events and subscriptions that were logged.
  function Pairs(logs: seq<LogEntry>): seq<(nat, string)> {
    seq(|logs|, i requires 0 <= i < |logs| => Pair(logs[i]))
  }

  lemma PairsOfMore(logs: seq<LogEntry>, entry: LogEntry)
    ensures Pairs(logs + [entry]) == Pairs(logs) + [Pair(entry)]
  {
  }

  lemma NoRepeatsWithMore<T>(s: seq<T>, x: T)
    requires NoRepeats(s) && x !in s
    ensures NoRepeats(s + [x])
  {
  }

  // The subscriptions that an event may still be sent to.
  function Outstanding(work: Work): seq<string> {
    if work.Pending? || work.Sending? then work.rest else []
  }

  // What a worker may still send was not sent before.
  ghost predicate Unsent(sends: seq<(nat, string)>, work: Work) {
    && NoRepeats(Outstanding(work))
    && (work.Loading? ==> forall p | p in sends :: p.0 != work.job.number)
    && (forall c | c in Outstanding(work) :: (work.job.number, c) !in sends)
    && (work.Sending? ==> work.configID !in work.rest && (work.job.number, work.configID) in sends)
  }

  ghost predicate SendsOk(s: State) {
    && NoRepeats(s.sends)
    && (forall p | p in s.sends :: p.0 < |s.dispatched| && Before(p.0, s.queue))
    && (forall w | w in s.workers :: Unsent(s.sends, s.workers[w]))
  }

  lemma ActionKeepsSends(s: State, a: Action)
    requires PlacesOk(s) && SendsOk(s) && Enabled(s, a)
    ensures SendsOk(Apply(s, a))
  {
    var s' := Apply(s, a);
    match a
    case Dispatch(_, _) =>
    case Register(_, _) =>
    case Take(w) => TakeKeepsSends(s, w);
    case LoadFails(w) =>
    case Finish(w) =>
    case Load(w, _) =>
    case Send(w) => SendKeepsSends(s, w);
    case SendEnds(w, _) =>
  }

  lemma TakeKeepsSends(s: State, w: nat)
    requires PlacesOk(s) && SendsOk(s) && Enabled(s, Take(w))
    ensures SendsOk(Apply(s, Take(w)))
  {
    forall p | p in s.sends ensures p.0 != s.queue[0].number && Before(p.0, s.queue[1..]) {
      assert Before(p.0, s.queue);
    }
  }

  lemma SendKeepsSends(s: State, w: nat)
    requires PlacesOk(s) && SendsOk(s) && Enabled(s, Send(w))
    ensures SendsOk(Apply(s, Send(w)))
  {
    var s' := Apply(s, Send(w));
    var work := s.workers[w];
    var p := (work.job.number, work.rest[0]);
    assert w in Busy(s.workers) && Unsent(s.sends, work);
    assert work.rest[0] in Outstanding(work) && work.rest[0] !in work.rest[1..];
    forall v | v in s'.workers ensures Unsent(s'.sends, s'.workers[v]) {
      assert Unsent(s.sends, s.workers[v]);
      if v != w && !s.workers[v].Idle? {
        assert v in Busy(s.workers);
        assert s.workers[v].job.number != p.0;
      }
    }
  }

  function UnderWay(workers: map<nat, Work>): set<nat> {
    set w | w in workers && workers[w].Sending?
  }

  function Awaited(work: Work): (nat, string)
    requires work.Sending?
  {
    (work.job.number, work.configID)
  }

  // The log holds one entry for each request that has ended, and none for one under way.
  ghost predicate LogsOk(s: State) {
    && |s.sends| == |s.logs| + |UnderWay(s.workers)|
    && NoRepeats(Pairs(s.logs)) && (forall p | p in Pairs(s.logs) :: p in s.sends)
    && (forall w | w in UnderWay(s.workers) :: Awaited(s.workers[w]) !in Pairs(s.logs))
  }

  lemma ActionKeepsLogs(s: State, a: Action)
    requires PlacesOk(s) && SendsOk(s) && LogsOk(s) && Enabled(s, a)
    ensures LogsOk(Apply(s, a))
  {
    match a
    case Send(w) => SendKeepsLogs(s, w);
    case SendEnds(w, exchange) => SendEndKeepsLogs(s, w, exchange);
    case _ => QuietKeepsLogs(s, a);
  }

  lemma QuietKeepsLogs(s: State, a: Action)
    requires LogsOk(s) && Enabled(s, a) && !a.Send? && !a.SendEnds?
    ensures LogsOk(Apply(s, a))
  {
    assert UnderWay(Apply(s, a).workers) == UnderWay(s.workers);
  }

  lemma SendKeepsLogs(s: State, w: nat)
    requires SendsOk(s) && LogsOk(s) && Enabled(s, Send(w))
    ensures LogsOk(Apply(s, Send(w)))
  {
    var s' := Apply(s, Send(w));
    var work := s.workers[w];
    assert UnderWay(s'.workers) == UnderWay(s.workers) + {w};
    assert Unsent(s.sends, work) && work.rest[0] in Outstanding(work);
  }

  lemma SendEndKeepsLogs(s: State, w: nat, exchange: Exchange)
    requires PlacesOk(s) && SendsOk(s) && LogsOk(s) && Enabled(s, SendEnds(w, exchange))
    ensures LogsOk(Apply(s, SendEnds(w, exchange)))
  {
    var s', work := Apply(s, SendEnds(w, exchange)), s.workers[w];
    var entry := Entry(work.job, work.configID, exchange);
    assert UnderWay(s'.workers) == UnderWay(s.workers) - {w};
    assert w in UnderWay(s.workers) && Unsent(s.sends, work);
    PairsOfMore(s.logs, entry);
    NoRepeatsWithMore(Pairs(s.logs), Pair(entry));
    OthersAwaitOther(s, w);
  }

  // No other worker awaits the answer to the same request.
  lemma OthersAwaitOther(s: State, w: nat)
    requires PlacesOk(s) && w in UnderWay(s.workers)
    ensures forall v | v in UnderWay(s.workers) && v != w :: Awaited(s.workers[v]) != Awaited(s.workers[w])
  {
    forall v | v in UnderWay(s.workers) && v != w ensures Awaited(s.workers[v]) != Awaited(s.workers[w]) {
      assert v in Busy(s.workers) && w in Busy(s.workers);
    }
  }

  // ---- whole runs ----

  ghost predicate Inv(s: State) {
    Conserved(s) && PlacesOk(s) && SendsOk(s) && LogsOk(s)
  }

  ghost predicate Init(s: State) {
    && s.dispatched == [] && s.dropped == [] && s.queue == [] && s.finished == [] && s.sends == [] && s.logs == []
    && forall w | w in s.workers :: s.workers[w].Idle?
  }

  ghost predicate IsRun(s: State, run: seq<Action>)
    decreases |run|
  {
    run != [] ==> Enabled(s, run[0]) && IsRun(Apply(s, run[0]), run[1..])
  }

  ghost function After(s: State, run: seq<Action>): State
    requires IsRun(s, run)
    decreases |run|
  {
    if run == [] then s else After(Apply(s, run[0]), run[1..])
  }

  lemma ActionKeepsInv(s: State, a: Action)
    requires Inv(s) && Enabled(s, a)
    ensures Inv(Apply(s, a))
  {
    ActionKeepsConserved(s, a);
    ActionKeepsPlaces(s, a);
    ActionKeepsSends(s, a);
    ActionKeepsLogs(s, a);
  }

  lemma {:induction false} RunKeepsInv(s: State, run: seq<Action>)
    requires Inv(s) && IsRun(s, run)
    ensures Inv(After(s, run))
    decreases |run|
  {
    if run != [] {
      ActionKeepsInv(s, run[0]);
      RunKeepsInv(Apply(s, run[0]), run[1..]);
    }
  }

  lemma InitHoldsInv(s: State)
    requires Init(s)
    ensures Inv(s)
  {
    assert UnderWay(s.workers) == {};
    assert forall job :: HoldersOf(s.workers, job) == {};
  }

  /**
   For any interleaving of dispatchers and workers, every dispatched event is in exactly one place and
   there once, dropped, queued, held by one worker or finished, and no other event is anywhere; the
   queue is in the order of dispatch and never exceeds its capacity.
   */
  lemma EventsAreConserved(s: State, run: seq<Action>)
    requires Init(s) && IsRun(s, run)
    ensures var s' := After(s, run);
            && (forall job :: Places(s', job) == if job in s'.dispatched then 1 else 0)
            && |s'.queue| <= 100 && PlacesOk(s')
  {
    InitHoldsInv(s);
    RunKeepsInv(s, run);
    var s' := After(s, run);
    forall job ensures Places(s', job) == if job in s'.dispatched then 1 else 0 {
      NumberedOnce(s'.dispatched, job);
    }
  }

  /**
   When the dispatched events are about different sessions, every session is sent to every
   subscription at most once, and every request that has ended made exactly one log entry.
   */
  lemma OneRequestPerSessionAndSubscription(s: State, run: seq<Action>)
    requires Init(s) && IsRun(s, run)
    requires DistinctSessions(After(s, run).dispatched)
    ensures SentOnce(After(s, run))
  {
    InitHoldsInv(s);
    RunKeepsInv(s, run);
    DistinctSessionsSentOnce(After(s, run));
  }

  ghost predicate DistinctSessions(jobs: seq<Job>) {
    forall i, j | 0 <= i < j < |jobs| :: jobs[i].sessionID != jobs[j].sessionID
  }

  // No session was sent twice to a subscription, and each request that has ended made one log entry,
  // no two of them for the same event and subscription.
  ghost predicate SentOnce(s: State) {
    && (forall i | 0 <= i < |s.sends| :: s.sends[i].0 < |s.dispatched|)
    && (forall i, j | 0 <= i < j < |s.sends| ::
          s.sends[i].1 != s.sends[j].1
          || s.dispatched[s.sends[i].0].sessionID != s.dispatched[s.sends[j].0].sessionID)
    && |s.sends| == |s.logs| + |UnderWay(s.workers)|
    && NoRepeats(Pairs(s.logs)) && (forall p | p in Pairs(s.logs) :: p in s.sends)
  }

  lemma DistinctSessionsSentOnce(s: State)
    requires SendsOk(s) && LogsOk(s) && DistinctSessions(s.dispatched)
    ensures SentOnce(s)
  {
    forall i | 0 <= i < |s.sends| ensures s.sends[i].0 < |s.dispatched| {
      assert s.sends[i] in s.sends;
    }
    forall i, j | 0 <= i < j < |s.sends|
      ensures s.sends[i].1 != s.sends[j].1
              || s.dispatched[s.sends[i].0].sessionID != s.dispatched[s.sends[j].0].sessionID
    {
      assert s.sends[i] != s.sends[j];
    }
  }

  // ---- what is logged, and who is served ----

  /** A dispatched event is queued when fewer than a hundred are, and dropped otherwise. */
  lemma DispatchQueuesOrDrops(s: State, event: string, sessionID: string)
    ensures var s', job := Apply(s, Dispatch(event, sessionID)), Job(|s.dispatched|, event, sessionID);
            && s'.dispatched == s.dispatched + [job]
            && s'.queue == (if |s.queue| < 100 then s.queue + [job] else s.queue)
            && s'.dropped == (if |s.queue| < 100 then s.dropped else s.dropped + [job])
  {
  }

  // A log entry calls a request successful exactly when its status is 2xx.
  ghost predicate LogsHonest(s: State) {
    forall i | 0 <= i < |s.logs| :: s.logs[i].isSuccess <==> 200 <= s.logs[i].statusCode <= 299
  }

  predicate Subscribes(configs: map<string, Subscription>, job: Job, c: string) {
    c in configs && configs[c].isActive && configs[c].event == job.event
  }

  // Requests are made, and still to be made, for subscriptions to the event.
  ghost predicate SendsFit(s: State) {
    && (forall i | 0 <= i < |s.sends| ::
          s.sends[i].0 < |s.dispatched| && Subscribes(s.configs, s.dispatched[s.sends[i].0], s.sends[i].1))
    && (forall w, c | w in s.workers && c in Outstanding(s.workers[w]) :: Subscribes(s.configs, s.workers[w].job, c))
  }

  lemma SendKeepsFit(s: State, w: nat)
    requires PlacesOk(s) && SendsFit(s) && Enabled(s, Send(w))
    ensures SendsFit(Apply(s, Send(w)))
  {
    var work := s.workers[w];
    assert w in Busy(s.workers) && work.rest[0] in Outstanding(work);
    assert forall c | c in work.rest[1..] :: c in Outstanding(work);
  }

  lemma ActionKeepsFit(s: State, a: Action)
    requires PlacesOk(s) && SendsFit(s) && Enabled(s, a)
    ensures SendsFit(Apply(s, a))
  {
    if a.Send? {
      SendKeepsFit(s, a.w);
    }
  }

  lemma HonestAfter(s: State, a: Action)
    requires LogsHonest(s) && Enabled(s, a)
    ensures LogsHonest(Apply(s, a))
  {
  }

  lemma {:induction false} RunKeepsFit(s: State, run: seq<Action>)
    requires Inv(s) && SendsFit(s) && LogsHonest(s) && IsRun(s, run)
    ensures SendsFit(After(s, run)) && LogsHonest(After(s, run))
    decreases |run|
  {
    if run != [] {
      var s', rest := Apply(s, run[0]), run[1..];
      assert Inv(s') && SendsFit(s') by {
        ActionKeepsInv(s, run[0]);
        ActionKeepsFit(s, run[0]);
      }
      HonestAfter(s, run[0]);
      RunKeepsFit(s', rest);
    }
  }

  /**
   Whatever the interleaving, every request goes to an active subscription to its event, and the log calls
   a request successful exactly when its status is 2xx.
   */
  lemma RequestsGoToSubscribers(s: State, run: seq<Action>)
    requires Init(s) && IsRun(s, run)
    ensures var t := After(s, run);
            && (forall i | 0 <= i < |t.sends| ::
                  t.sends[i].0 < |t.dispatched| && Subscribes(t.configs, t.dispatched[t.sends[i].0], t.sends[i].1))
            && (forall i | 0 <= i < |t.logs| :: t.logs[i].isSuccess <==> 200 <= t.logs[i].statusCode <= 299)
  {
    InitHoldsInv(s);
    RunKeepsFit(s, run);
  }

  // The worker holds the event, and each of these subscriptions was sent a request or still will be.
  ghost predicate Serves(s: State, w: nat, job: Job, configs: seq<string>) {
    && w in s.workers && (s.workers[w].Pending? || s.workers[w].Sending?) && s.workers[w].job == job
    && forall c | c in configs :: (job.number, c) in s.sends || c in s.workers[w].rest
  }

  lemma {:induction false} RunServes(s: State, w: nat, job: Job, configs: seq<string>, run: seq<Action>)
    requires Serves(s, w, job, configs) && IsRun(s, run) && Finish(w) !in run
    ensures Serves(After(s, run), w, job, configs)
    decreases |run|
  {
    if run != [] {
      assert run[0] in run;
      ActionServes(s, w, job, configs, run[0]);
      RunServes(Apply(s, run[0]), w, job, configs, run[1..]);
    }
  }

  lemma ActionServes(s: State, w: nat, job: Job, configs: seq<string>, a: Action)
    requires Serves(s, w, job, configs) && Enabled(s, a) && a != Finish(w)
    ensures Serves(Apply(s, a), w, job, configs)
  {
    var s' := Apply(s, a);
    forall c | c in configs ensures (job.number, c) in s'.sends || c in s'.workers[w].rest {
      if a == Send(w) && c in s.workers[w].rest {
        assert s.workers[w].rest == [s.workers[w].rest[0]] + s.workers[w].rest[1..];
        assert s'.sends[|s.sends|] == (job.number, s.workers[w].rest[0]);
      }
      assert s.sends <= s'.sends;
    }
  }

  /**
   When a worker is done with an event, every subscription to it that was active when the worker read
   them has been sent a request.
   */
  lemma EverySubscriberIsServed(s: State, w: nat, order: seq<string>, run: seq<Action>, c: string)
    requires Enabled(s, Load(w, order)) && IsRun(Apply(s, Load(w, order)), run) && Finish(w) !in run
    requires Enabled(After(Apply(s, Load(w, order)), run), Finish(w))
    requires Subscribes(s.configs, s.workers[w].job, c)
    ensures (s.workers[w].job.number, c) in After(Apply(s, Load(w, order)), run).sends
  {
    var job, s' := s.workers[w].job, Apply(s, Load(w, order));
    assert Listed(s.configs, job.event, c);
    RunServes(s', w, job, order, run);
  }

  // ---- a worker that nobody interrupts ----

  // The requests for an event, and the log entries that they make.
  function Requests(job: Job, configs: seq<string>): seq<(nat, string)> {
    seq(|configs|, i requires 0 <= i < |configs| => (job.number, configs[i]))
  }

  function Entries(job: Job, configs: seq<string>, exchanges: seq<Exchange>): seq<LogEntry>
    requires |exchanges| == |configs|
  {
    seq(|configs|, i requires 0 <= i < |configs| => Entry(job, configs[i], exchanges[i]))
  }

  lemma AfterFirstTwo(s: State, a: Action, b: Action, rest: seq<Action>)
    requires Enabled(s, a) && Enabled(Apply(s, a), b) && IsRun(Apply(Apply(s, a), b), rest)
    ensures IsRun(s, [a, b] + rest) && After(s, [a, b] + rest) == After(Apply(Apply(s, a), b), rest)
  {
    assert ([a, b] + rest)[1..] == [b] + rest;
    assert ([b] + rest)[1..] == rest;
  }

  // The state after a worker's requests for the rest of its subscriptions.
  function Delivered(s: State, w: nat, exchanges: seq<Exchange>): State
    requires w in s.workers && s.workers[w].Pending? && |exchanges| == |s.workers[w].rest|
  {
    var job, rest := s.workers[w].job, s.workers[w].rest;
    s.(workers := s.workers[w := Pending(job, [])], sends := s.sends + Requests(job, rest),
       logs := s.logs + Entries(job, rest, exchanges))
  }

  lemma DeliveredStepwise(s: State, w: nat, exchanges: seq<Exchange>)
    requires w in s.workers && s.workers[w].Pending? && |exchanges| == |s.workers[w].rest| > 0
    ensures var s2 := Apply(Apply(s, Send(w)), SendEnds(w, exchanges[0]));
            && s2.workers == s.workers[w := Pending(s.workers[w].job, s.workers[w].rest[1..])]
            && Delivered(s2, w, exchanges[1..]) == Delivered(s, w, exchanges)
  {
    var job, rest := s.workers[w].job, s.workers[w].rest;
    assert Requests(job, rest) == [(job.number, rest[0])] + Requests(job, rest[1..]);
    assert Entries(job, rest, exchanges) == [Entry(job, rest[0], exchanges[0])]
        + Entries(job, rest[1..], exchanges[1..]);
    var s2 := Apply(Apply(s, Send(w)), SendEnds(w, exchanges[0]));
    assert s2.sends + Requests(job, rest[1..]) == s.sends + Requests(job, rest);
    assert s2.logs + Entries(job, rest[1..], exchanges[1..]) == s.logs + Entries(job, rest, exchanges);
  }

  /**
   The steps of a worker that nobody interrupts send one request for every subscription left, and log
   what Deliver logs.
   */
  lemma {:induction false} AloneAsDeliver(s: State, w: nat, exchanges: seq<Exchange>) returns (run: seq<Action>)
    requires w in s.workers && s.workers[w].Pending? && |exchanges| == |s.workers[w].rest|
    ensures IsRun(s, run) && After(s, run) == Delivered(s, w, exchanges)
    decreases |exchanges|
  {
    if exchanges == [] {
      run := [];
      assert s.workers[w] == Pending(s.workers[w].job, []);
      assert s.workers[w := Pending(s.workers[w].job, [])] == s.workers;
    } else {
      var s2 := Apply(Apply(s, Send(w)), SendEnds(w, exchanges[0]));
      DeliveredStepwise(s, w, exchanges);
      run := AloneAsDeliver(s2, w, exchanges[1..]);
      AfterFirstTwo(s, Send(w), SendEnds(w, exchanges[0]), run);
      run := [Send(w), SendEnds(w, exchanges[0])] + run;
    }
  }

  // ---- the worker's loop over the subscriptions ----

  class Worker {
    var logs: seq<LogEntry>

    constructor ()
      ensures logs == []
    {
      logs := [];
    }

    // `exchanges` tells how each request ends, in the order of the subscriptions.
    method Deliver(job: Job, configs: seq<string>, exchanges: seq<Exchange>)
      requires |exchanges| == |configs|
      modifies this
      ensures logs == old(logs) + Entries(job, configs, exchanges)
    {
      for i := 0 to |configs|
        invariant logs == old(logs) + Entries(job, configs, exchanges)[..i]
      {
        SendWebhook(job, configs[i], exchanges[i]);
      }
    }

    // Every way out of a request passes through the log exactly once.
    method SendWebhook(job: Job, configID: string, exchange: Exchange)
      modifies this
      ensures logs == old(logs) + [Entry(job, configID, exchange)]
      ensures exchange.Answered? ==>
                logs[|old(logs)|] == LogEntry(
                  job.number, configID, exchange.statusCode, 200 <= exchange.statusCode <= 299)
      ensures !exchange.Answered? ==> logs[|old(logs)|] == LogEntry(job.number, configID, 0, false)
    {
      if exchange.UrlRejected? || exchange.SecretUnreadable? {
        logs := logs + [LogEntry(job.number, configID, 0, false)];
        return;
      }
      if exchange.RequestInvalid? {
        logs := logs + [LogEntry(job.number, configID, 0, false)];
        return;
      }
      if exchange.ExchangeFailed? {
        logs := logs + [LogEntry(job.number, configID, 0, false)];
        return;
      }
      var isSuccess := exchange.statusCode >= 200 && exchange.statusCode < 300;
      logs := logs + [LogEntry(job.number, configID, exchange.statusCode, isSuccess)];
    }
  }
}
