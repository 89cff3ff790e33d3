/**
 The per-client rate limiter: a fixed-window counter in a bounded map, a background sweep, and the
 eviction of one arbitrary client when the map is full. Every event runs under the mutex and samples
 the clock there, so times never decrease from event to event.
 */
module RateLimiter {

  datatype Visitor = Visitor(lastSeen: int, count: int)

  const MAX_TRACKED := 10000

  // ---- the state and its two operations ----

  class Limiter {
    var visitors: map<string, Visitor>
    const limit: int
    const window: int

    constructor (limit: int, window: int)
      ensures this.limit == limit && this.window == window && visitors == map[]
    {
      this.limit, this.window := limit, window;
      visitors := map[];
    }

    // Whether a client's request goes through. When the map is full, `evicted` is the arbitrary victim.
    method Request(clientIP: string, now: int) returns (allowed: bool, evicted: string)
      modifies this
      ensures Opens(window, old(visitors), clientIP, now) && Evicts(old(visitors), clientIP) ==>
                evicted in old(visitors)
      ensures (visitors, allowed) == Serve(limit, window, old(visitors), clientIP, now, evicted)
    {
      evicted := "";
      if clientIP !in visitors || now - visitors[clientIP].lastSeen > window {
        if clientIP !in visitors && |visitors| >= MAX_TRACKED {
          assert visitors != map[];
          evicted :| evicted in visitors;
          visitors := visitors - {evicted};
        }
        visitors := visitors[clientIP := Visitor(now, 1)];
        return true, evicted;
      }
      var v := visitors[clientIP];
      visitors := visitors[clientIP := v.(count := v.count + 1)];
      return visitors[clientIP].count <= limit, evicted;
    }

    // One pass of the background sweep; `readings` gives the clock reading at each visited entry.
    method Cleanup(readings: map<string, int>)
      requires visitors.Keys <= readings.Keys
      modifies this
      ensures visitors == Swept(window, old(visitors), readings)
    {
      var todo := visitors.Keys;
      while todo != {}
        invariant todo <= visitors.Keys <= old(visitors).Keys
        invariant forall ip | ip in visitors :: visitors[ip] == old(visitors)[ip]
        invariant forall ip | ip in old(visitors) && ip !in todo ::
                    ip in visitors <==> readings[ip] - old(visitors)[ip].lastSeen <= window
        decreases todo
      {
        var ip :| ip in todo;
        if readings[ip] - visitors[ip].lastSeen > window {
          visitors := visitors - {ip};
        }
        todo := todo - {ip};
      }
    }
  }

  // A request that starts a new counting window.
  predicate Opens(window: int, visitors: map<string, Visitor>, ip: string, now: int) {
    ip !in visitors || now - visitors[ip].lastSeen > window
  }

  // A request for which the map has no room.
  predicate Evicts(visitors: map<string, Visitor>, ip: string) {
    ip !in visitors && |visitors| >= MAX_TRACKED
  }

  function Serve(limit: int, window: int, visitors: map<string, Visitor>, ip: string, now: int, victim: string)
    : (map<string, Visitor>, bool)
  {
    if Opens(window, visitors, ip, now) then
      var kept := if Evicts(visitors, ip) then visitors - {victim} else visitors;
      (kept[ip := Visitor(now, 1)], true)
    else
      var v := visitors[ip];
      (visitors[ip := v.(count := v.count + 1)], v.count + 1 <= limit)
  }

  function Swept(window: int, visitors: map<string, Visitor>, readings: map<string, int>): map<string, Visitor> {
    map ip | ip in visitors && (ip in readings ==> readings[ip] - visitors[ip].lastSeen <= window) :: visitors[ip]
  }

  // ---- runs ----

  // A sweep takes its readings no later than `now`, the time at which it ends.
  datatype Event = Arrival(ip: string, now: int, victim: string) | Sweep(readings: map<string, int>, now: int)

  // Times within from..to that never decrease, and victims that are tracked.
  predicate Timely(window: int, visitors: map<string, Visitor>, events: seq<Event>, from: int, to: int)
    decreases |events|
  {
    events != [] ==>
      && from <= events[0].now <= to
      && (events[0].Arrival? && Evicts(visitors, events[0].ip) ==> events[0].victim in visitors)
      && (events[0].Sweep? ==> forall ip | ip in events[0].readings :: events[0].readings[ip] <= events[0].now)
      && Timely(window, Next(0, window, visitors, events[0]), events[1..], events[0].now, to)
  }

  function Next(limit: int, window: int, visitors: map<string, Visitor>, event: Event): map<string, Visitor> {
    match event
    case Arrival(ip, now, victim) => Serve(limit, window, visitors, ip, now, victim).0
    case Sweep(readings, _) => Swept(window, visitors, readings)
  }

  function After(window: int, visitors: map<string, Visitor>, events: seq<Event>): map<string, Visitor>
    decreases |events|
  {
    if events == [] then visitors else After(window, Next(0, window, visitors, events[0]), events[1..])
  }

  // The answers that one client gets, in order.
  function Answers(limit: int, window: int, visitors: map<string, Visitor>, events: seq<Event>, ip: string): seq<bool>
    decreases |events|
  {
    if events == [] then []
    else
      var rest := Answers(limit, window, Next(limit, window, visitors, events[0]), events[1..], ip);
      if events[0].Arrival? && events[0].ip == ip
      then [Serve(limit, window, visitors, ip, events[0].now, events[0].victim).1] + rest
      else rest
  }

  // No event evicts the client for capacity.
  predicate NeverEvicted(window: int, visitors: map<string, Visitor>, events: seq<Event>, ip: string)
    decreases |events|
  {
    events != [] ==>
      && (events[0].Arrival? && Evicts(visitors, events[0].ip) ==> events[0].victim != ip)
      && NeverEvicted(window, Next(0, window, visitors, events[0]), events[1..], ip)
  }

  predicate Counting(visitors: map<string, Visitor>) {
    forall ip | ip in visitors :: visitors[ip].count >= 1
  }

  function Count(answers: seq<bool>): nat {
    if answers == [] then 0 else (if answers[0] then 1 else 0) + Count(answers[1..])
  }

  function Max(a: int, b: int): int {
    if a < b then b else a
  }

  // The limit matters only to the answers.
  lemma LimitOnlyAnswers(limit: int, window: int, visitors: map<string, Visitor>, event: Event)
    ensures Next(limit, window, visitors, event) == Next(0, window, visitors, event)
  {
  }

  // ---- the size of the map ----

  lemma {:induction false} TrackedClientsBounded(
      window: int, visitors: map<string, Visitor>, events: seq<Event>, from: int, to: int)
    requires |visitors| <= 10000 && Timely(window, visitors, events, from, to)
    ensures |After(window, visitors, events)| <= 10000
    decreases |events|
  {
    if events != [] {
      var next := Next(0, window, visitors, events[0]);
      EventKeepsBound(window, visitors, events[0]);
      TrackedClientsBounded(window, next, events[1..], events[0].now, to);
    }
  }

  lemma EventKeepsBound(window: int, visitors: map<string, Visitor>, event: Event)
    requires |visitors| <= MAX_TRACKED
    requires event.Arrival? && Evicts(visitors, event.ip) ==> event.victim in visitors
    ensures |Next(0, window, visitors, event)| <= MAX_TRACKED
  {
    var next := Next(0, window, visitors, event);
    match event
    case Sweep(readings, _) =>
      assert next.Keys <= visitors.Keys;
      KeysSubsetSize(next.Keys, visitors.Keys);
    case Arrival(ip, now, victim) =>
      if Evicts(visitors, ip) {
        assert next.Keys == visitors.Keys - {victim} + {ip};
      } else {
        assert next.Keys == visitors.Keys + {ip};
      }
  }

  lemma KeysSubsetSize(a: set<string>, b: set<string>)
    requires a <= b
    ensures |a| <= |b|
  {
    assert b == a + (b - a);
  }

  // ---- one counting window ----

  // Within its window a client is answered yes exactly while the count is within the limit.
  lemma {:induction false} WindowAnswers(
      limit: int, window: int, visitors: map<string, Visitor>, events: seq<Event>, ip: string, from: int, to: int)
    requires Timely(window, visitors, events, from, to) && NeverEvicted(window, visitors, events, ip)
    requires ip in visitors && to - visitors[ip].lastSeen <= window
    ensures var answers := Answers(limit, window, visitors, events, ip);
            answers == seq(|answers|, i => visitors[ip].count + 1 + i <= limit)
    decreases |events|
  {
    if events != [] {
      var next := Next(0, window, visitors, events[0]);
      LimitOnlyAnswers(limit, window, visitors, events[0]);
      WindowAnswers(limit, window, next, events[1..], ip, events[0].now, to);
    }
  }

  /** Of the k requests in one counting window, the opening one included, exactly the first min(k, limit) go through. */
  lemma FirstRequestsGoThrough(
      limit: int, window: int, visitors: map<string, Visitor>, opening: Event, events: seq<Event>)
    requires limit >= 1 && opening.Arrival? && Opens(window, visitors, opening.ip, opening.now)
    requires Timely(window, visitors, [opening] + events, opening.now, opening.now + window)
    requires NeverEvicted(window, visitors, [opening] + events, opening.ip)
    ensures var answers := Answers(limit, window, visitors, [opening] + events, opening.ip);
            answers == seq(|answers|, i => i < limit)
  {
    var all := [opening] + events;
    assert all[0] == opening && all[1..] == events;
    var next := Next(0, window, visitors, opening);
    LimitOnlyAnswers(limit, window, visitors, opening);
    WindowAnswers(limit, window, next, events, opening.ip, opening.now, opening.now + window);
  }

  // ---- any span of one window length ----

  lemma CountOfPrefix(n: nat, first: int, limit: int)
    ensures Count(seq(n, i => first + i <= limit)) <= Max(0, limit - first + 1)
    ensures Count(seq(n, i => first + i <= limit)) <= n
    ensures n <= limit - first + 1 ==> Count(seq(n, i => first + i <= limit)) == n
    decreases n
  {
    if n > 0 {
      var s := seq(n, i => first + i <= limit);
      CountOfPrefix(n - 1, first + 1, limit);
      assert s[1..] == seq(n - 1, i => first + 1 + i <= limit);
    }
  }

  // What a client may still get through before `to`, by the state of its counter.
  function Allowance(limit: int, visitors: map<string, Visitor>, ip: string): int {
    Max(1, limit) + if ip in visitors then Max(0, limit - visitors[ip].count) else 0
  }

  lemma {:induction false} AdmittedWithinAllowance(
      limit: int, window: int, visitors: map<string, Visitor>, events: seq<Event>, ip: string, from: int, to: int)
    requires Timely(window, visitors, events, from, to) && NeverEvicted(window, visitors, events, ip)
    requires to - from <= window
    ensures Count(Answers(limit, window, visitors, events, ip)) <= Allowance(limit, visitors, ip)
    decreases |events|
  {
    if events != [] {
      var event, next := events[0], Next(0, window, visitors, events[0]);
      LimitOnlyAnswers(limit, window, visitors, event);
      var rest := Answers(limit, window, next, events[1..], ip);
      if event.Arrival? && event.ip == ip {
        var answers := Answers(limit, window, visitors, events, ip);
        assert answers[1..] == rest;
        if Opens(window, visitors, ip, event.now) {
          WindowAnswers(limit, window, next, events[1..], ip, event.now, to);
          CountOfPrefix(|rest|, 2, limit);
          assert rest == seq(|rest|, i => 2 + i <= limit);
        } else {
          AdmittedWithinAllowance(limit, window, next, events[1..], ip, event.now, to);
        }
      } else {
        AdmittedWithinAllowance(limit, window, next, events[1..], ip, event.now, to);
      }
    }
  }

  /**
   A client that is not evicted during the span gets at most 2 * limit - 1 requests through in any
   closed span of one window length, from any state and under any sweeps; with a limit below one, one.
   */
  lemma SpanAdmitsBelowTwiceLimit(
      limit: int, window: int, visitors: map<string, Visitor>, events: seq<Event>, ip: string, from: int)
    requires Counting(visitors) && Timely(window, visitors, events, from, from + window)
    requires NeverEvicted(window, visitors, events, ip)
    ensures Count(Answers(limit, window, visitors, events, ip)) <= 2 * Max(1, limit) - 1
  {
    AdmittedWithinAllowance(limit, window, visitors, events, ip, from, from + window);
  }

  // The counters stay counters.
  lemma {:induction false} CountingKept(window: int, visitors: map<string, Visitor>, events: seq<Event>)
    requires Counting(visitors)
    ensures Counting(After(window, visitors, events))
    decreases |events|
  {
    if events != [] {
      CountingKept(window, Next(0, window, visitors, events[0]), events[1..]);
    }
  }

  // Only this client calls, within from..to, and k of its requests go through.
  ghost predicate Admits(
      limit: int, window: int, v: Visitor, ip: string, events: seq<Event>, from: int, to: int, k: nat) {
    && Timely(window, map[ip := v], events, from, to) && NeverEvicted(window, map[ip := v], events, ip)
    && Count(Answers(limit, window, map[ip := v], events, ip)) == k
  }

  // A request that starts a window, or stays within the limit of its window, adds one.
  lemma OneMore(
      limit: int, window: int, v: Visitor, v': Visitor, ip: string, now: int, events: seq<Event>, from: int, to: int,
      k: nat)
    requires from <= now <= to && Admits(limit, window, v', ip, events, now, to, k)
    requires if now - v.lastSeen > window then v' == Visitor(now, 1)
             else v' == v.(count := v.count + 1) && v'.count <= limit
    ensures Admits(limit, window, v, ip, [Arrival(ip, now, "")] + events, from, to, k + 1)
  {
    var all := [Arrival(ip, now, "")] + events;
    assert all[0] == Arrival(ip, now, "") && all[1..] == events;
    assert Next(0, window, map[ip := v], all[0]) == map[ip := v'] == Next(limit, window, map[ip := v], all[0]);
    var later := Answers(limit, window, map[ip := v'], events, ip);
    assert Answers(limit, window, map[ip := v], all, ip) == [true] + later;
    assert ([true] + later)[1..] == later;
  }

  // n more requests within the limit of the window add n.
  lemma {:induction false} Burst(
      limit: int, window: int, v: Visitor, ip: string, now: int, n: nat, events: seq<Event>, to: int, k: nat)
    returns (all: seq<Event>)
    requires 0 <= now - v.lastSeen <= window && v.count + n <= limit && now <= to
    requires Admits(limit, window, v.(count := v.count + n), ip, events, now, to, k)
    ensures Admits(limit, window, v, ip, all, now, to, k + n)
    decreases n
  {
    if n == 0 {
      all := events;
    } else {
      var v' := v.(count := v.count + 1);
      assert v'.(count := v'.count + (n - 1)) == v.(count := v.count + n);
      all := Burst(limit, window, v', ip, now, n - 1, events, to, k);
      OneMore(limit, window, v, v', ip, now, all, now, to, k + (n - 1));
      all := [Arrival(ip, now, "")] + all;
    }
  }

  lemma TimelyFrom(window: int, visitors: map<string, Visitor>, events: seq<Event>, from: int, later: int, to: int)
    requires from <= later && Timely(window, visitors, events, later, to)
    ensures Timely(window, visitors, events, from, to)
  {
  }

  /**
   The bound is met from a new limiter: a client that opens a window just before the span gets
   2 * limit - 1 requests through in it.
   */
  lemma SpanBoundIsTight(limit: int, window: int, ip: string) returns (history: seq<Event>, events: seq<Event>)
    requires limit >= 1 && window >= 1
    ensures Timely(window, map[], history, 0, 1)
    ensures var visitors := After(window, map[], history);
            && Timely(window, visitors, events, 1, 1 + window) && NeverEvicted(window, visitors, events, ip)
            && Count(Answers(limit, window, visitors, events, ip)) == 2 * limit - 1
  {
    var early, last, end := Visitor(0, 1), Visitor(window + 1, 1), window + 1;
    assert Admits(limit, window, last.(count := limit), ip, [], end, end, 0);
    events := Burst(limit, window, last, ip, end, limit - 1, [], end, 0);
    OneMore(limit, window, early.(count := limit), last, ip, end, events, window, end, limit - 1);
    events := [Arrival(ip, end, "")] + events;
    events := Burst(limit, window, early, ip, window, limit - 1, events, end, limit);
    TimelyFrom(window, map[ip := early], events, 1, window, end);
    history := [Arrival(ip, 0, "")];
    OpeningArrival(window, ip);
  }

  lemma OpeningArrival(window: int, ip: string)
    ensures Timely(window, map[], [Arrival(ip, 0, "")], 0, 1)
    ensures After(window, map[], [Arrival(ip, 0, "")]) == map[ip := Visitor(0, 1)]
  {
    assert [Arrival(ip, 0, "")][1..] == [];
    assert Next(0, window, map[], Arrival(ip, 0, "")) == map[ip := Visitor(0, 1)];
  }

  // No client that is not evicted during it gets more than `bound` requests through in a closed span
  // of one window length, whatever happened since the limiter was new.
  ghost predicate SpansAdmitAtMost(limit: int, window: int, bound: int) {
    forall history, events, ip, start, from |
      && Timely(window, map[], history, start, from)
      && Timely(window, After(window, map[], history), events, from, from + window)
      && NeverEvicted(window, After(window, map[], history), events, ip) ::
      Count(Answers(limit, window, After(window, map[], history), events, ip)) <= bound
  }

  /** The bounds that hold are exactly those from 2 * limit - 1 on. */
  lemma SpanBound(limit: int, window: int, bound: int)
    requires limit >= 1 && window >= 1
    ensures SpansAdmitAtMost(limit, window, bound) <==> bound >= 2 * limit - 1
  {
    forall history, events, ip, start, from |
      && Timely(window, map[], history, start, from)
      && Timely(window, After(window, map[], history), events, from, from + window)
      && NeverEvicted(window, After(window, map[], history), events, ip)
      ensures Count(Answers(limit, window, After(window, map[], history), events, ip)) <= 2 * limit - 1
    {
      CountingKept(window, map[], history);
      SpanAdmitsBelowTwiceLimit(limit, window, After(window, map[], history), events, ip, from);
    }
    var history, events := SpanBoundIsTight(limit, window, "");
  }

  /** A limit holds over every span of one window length exactly when it is one. */
  lemma LimitHoldsOnlyForOne(limit: int, window: int)
    requires limit >= 1 && window >= 1
    ensures SpansAdmitAtMost(limit, window, limit) <==> limit == 1
  {
    SpanBound(limit, window, limit);
  }

  // ---- the sweep is unobservable ----

  // A limiter that keeps every visitor and never sweeps.
  function ForeverAnswers(limit: int, window: int, seen: map<string, Visitor>, events: seq<Event>): seq<bool>
    decreases |events|
  {
    if events == [] then []
    else
      match events[0]
      case Sweep(_, _) => ForeverAnswers(limit, window, seen, events[1..])
      case Arrival(ip, now, _) =>
        if Opens(window, seen, ip, now)
            then [true] + ForeverAnswers(limit, window, seen[ip := Visitor(now, 1)], events[1..])
        else
          var v := seen[ip].(count := seen[ip].count + 1);
          [v.count <= limit] + ForeverAnswers(limit, window, seen[ip := v], events[1..])
  }

  function AllAnswers(limit: int, window: int, visitors: map<string, Visitor>, events: seq<Event>): seq<bool>
    decreases |events|
  {
    if events == [] then []
    else
      var rest := AllAnswers(limit, window, Next(limit, window, visitors, events[0]), events[1..]);
      match events[0]
      case Sweep(_, _) => rest
      case Arrival(ip, now, victim) => [Serve(limit, window, visitors, ip, now, victim).1] + rest
  }

  predicate NobodyEvicted(window: int, visitors: map<string, Visitor>, events: seq<Event>)
    decreases |events|
  {
    events != [] ==>
      && (events[0].Arrival? ==> !Evicts(visitors, events[0].ip))
      && NobodyEvicted(window, Next(0, window, visitors, events[0]), events[1..])
  }

  // The tracked visitors are remembered alike, and whoever is not tracked any more has an expired window.
  ghost predicate Agrees(window: int, visitors: map<string, Visitor>, seen: map<string, Visitor>, now: int) {
    && (forall ip | ip in visitors :: ip in seen && seen[ip] == visitors[ip])
    && (forall ip | ip in seen && ip !in visitors :: now - seen[ip].lastSeen > window)
  }

  /** Absent eviction, whatever the sweeps, the answers are those of a limiter that keeps every visitor forever. */
  lemma {:induction false} CleanupIsUnobservable(
      limit: int, window: int, visitors: map<string, Visitor>, seen: map<string, Visitor>, events: seq<Event>,
      from: int, to: int)
    requires Timely(window, visitors, events, from, to) && NobodyEvicted(window, visitors, events)
    requires Agrees(window, visitors, seen, from)
    ensures AllAnswers(limit, window, visitors, events) == ForeverAnswers(limit, window, seen, events)
    decreases |events|
  {
    if events != [] {
      var event := events[0];
      var next := Next(limit, window, visitors, event);
      LimitOnlyAnswers(limit, window, visitors, event);
      match event
      case Sweep(readings, now) =>
        CleanupIsUnobservable(limit, window, next, seen, events[1..], now, to);
      case Arrival(ip, now, _) =>
        assert Opens(window, visitors, ip, now) <==> Opens(window, seen, ip, now);
        var v := if Opens(window, seen, ip, now) then Visitor(now, 1) else seen[ip].(count := seen[ip].count + 1);
        CleanupIsUnobservable(limit, window, next, seen[ip := v], events[1..], now, to);
    }
  }
}
