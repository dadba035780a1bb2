/** The fixed-window limiter of `roomEvents.js`, and what it guarantees over sliding windows. */
module RateLimiter {
  import opened Ids
  import opened JsMaps

  type Time = int

  datatype PostKind = Chat | Reaction
  datatype Key = Key(socket: SocketId, kind: PostKind)
  datatype Window = Window(count: nat, windowStart: Time)

  const CHAT_RATE_LIMIT_MAX := 8
  const CHAT_RATE_LIMIT_WINDOW_MS := 5000
  const REACTION_RATE_LIMIT_MAX := 15
  const REACTION_RATE_LIMIT_WINDOW_MS := 5000

  function MaxOf(kind: PostKind): nat {
    if kind.Chat? then CHAT_RATE_LIMIT_MAX else REACTION_RATE_LIMIT_MAX
  }

  function WindowOf(kind: PostKind): nat {
    if kind.Chat? then CHAT_RATE_LIMIT_WINDOW_MS else REACTION_RATE_LIMIT_WINDOW_MS
  }

  function Lookup<K, V>(m: map<K, V>, k: K): Option<V> {
    if k in m then Some(m[k]) else None
  }

  // ---- one request ----

  /** A request that finds no window, or one that is over, opens a new one. */
  predicate Opens(w: Option<Window>, windowMs: nat, now: Time) {
    w.None? || now - w.value.windowStart >= windowMs
  }

  function NextWindow(w: Option<Window>, windowMs: nat, now: Time): Window {
    if Opens(w, windowMs, now) then Window(1, now) else w.value.(count := w.value.count + 1)
  }

  predicate Limited(w: Option<Window>, max: nat, windowMs: nat, now: Time) {
    !Opens(w, windowMs, now) && w.value.count + 1 > max
  }

  class Limiter {
    var rateLimitState: map<Key, Window>

    constructor ()
      ensures rateLimitState == map[]
    {
      rateLimitState := map[];
    }

    method IsRateLimited(key: Key, max: nat, windowMs: nat, now: Time) returns (limited: bool)
      modifies this
      ensures rateLimitState == old(rateLimitState)[key := NextWindow(Lookup(old(rateLimitState), key), windowMs, now)]
      ensures limited == Limited(Lookup(old(rateLimitState), key), max, windowMs, now)
    {
      if key !in rateLimitState || now - rateLimitState[key].windowStart >= windowMs {
        rateLimitState := rateLimitState[key := Window(1, now)];
        return false;
      }
      var state := rateLimitState[key];
      rateLimitState := rateLimitState[key := state.(count := state.count + 1)];
      return state.count + 1 > max;
    }

    method ClearRateLimitState(socket: SocketId)
      modifies this
      ensures rateLimitState == old(rateLimitState) - {Key(socket, Chat), Key(socket, Reaction)}
    {
      rateLimitState := rateLimitState - {Key(socket, Chat)};
      rateLimitState := rateLimitState - {Key(socket, Reaction)};
    }
  }

  // ---- the requests of one key since its last clear ----

  ghost predicate Nondecreasing(times: seq<Time>) {
    forall i, j :: 0 <= i < j < |times| ==> times[i] <= times[j]
  }

  function Last<T>(s: seq<T>): T requires s != [] { s[|s| - 1] }

  function Front<T>(s: seq<T>): seq<T> requires s != [] { s[..|s| - 1] }

  function WindowAfter(times: seq<Time>, windowMs: nat): Option<Window> {
    if times == [] then None
    else Some(NextWindow(WindowAfter(Front(times), windowMs), windowMs, Last(times)))
  }

  /** The request that opened the current window: the first of all, then each first one that comes at
      least a window after the opener before it. */
  function LastOpener(times: seq<Time>, windowMs: nat): (r: Option<nat>)
    ensures r.None? <==> times == []
    ensures r.Some? ==> r.value < |times|
  {
    if times == [] then None
    else
      var before := LastOpener(Front(times), windowMs);
      if before.None? || Last(times) - times[before.value] >= windowMs then Some(|times| - 1) else before
  }

  /** The stored window is the opener's time and how many requests came from it on. */
  lemma {:induction false} WindowIsOpeners(times: seq<Time>, windowMs: nat)
    ensures times != [] ==>
      var o := LastOpener(times, windowMs).value;
      WindowAfter(times, windowMs) == Some(Window(|times| - o, times[o]))
    ensures times == [] ==> WindowAfter(times, windowMs) == None
  {
    if times != [] {
      WindowIsOpeners(Front(times), windowMs);
    }
  }

  /** How many requests made in `[from, from + windowMs)` were let through. */
  function AcceptedIn(times: seq<Time>, max: nat, windowMs: nat, from: Time): nat {
    if times == [] then 0
    else
      AcceptedIn(Front(times), max, windowMs, from) +
      if from <= Last(times) < from + windowMs && !Limited(WindowAfter(Front(times), windowMs), max, windowMs, Last(times))
      then 1 else 0
  }

  /** The budget spent in an interval, by where the current window starts. If it starts before
      the interval its opener fell outside; a window starting inside leaves at most one earlier
      window that reaches the interval, and that one started before it. */
  lemma {:induction false} IntervalBudget(times: seq<Time>, max: nat, windowMs: nat, from: Time)
    requires Nondecreasing(times) && max >= 1 && windowMs > 0 && times != []
    ensures WindowAfter(times, windowMs).value.count >= 1
    ensures WindowAfter(times, windowMs).value.windowStart <= Last(times)
    ensures var w, accepted := WindowAfter(times, windowMs).value, AcceptedIn(times, max, windowMs, from);
      (Last(times) < from ==> accepted == 0) &&
      (w.windowStart < from ==> accepted < w.count && accepted < max) &&
      (from <= w.windowStart < from + windowMs ==> accepted <= max - 1 + w.count) &&
      accepted <= 2 * max - 1
  {
    if |times| > 1 {
      IntervalBudget(Front(times), max, windowMs, from);
      assert Last(Front(times)) <= Last(times);
    }
  }

  /** Between two clears, at most `2 * max - 1` requests pass in any interval of one window. */
  lemma SlidingWindowBound(times: seq<Time>, max: nat, windowMs: nat, from: Time)
    requires Nondecreasing(times) && max >= 1 && windowMs > 0
    ensures AcceptedIn(times, max, windowMs, from) <= 2 * max - 1
  {
    if times != [] {
      IntervalBudget(times, max, windowMs, from);
    }
  }

  function Burst(n: nat, at: Time): seq<Time> {
    seq(n, _ => at)
  }

  /** What is spent of the window that a request at `at` falls into. */
  function Used(times: seq<Time>, windowMs: nat, at: Time): nat {
    var w := WindowAfter(times, windowMs);
    if Opens(w, windowMs, at) then 0 else w.value.count
  }

  lemma {:induction false} BurstPasses(times: seq<Time>, n: nat, at: Time, max: nat, windowMs: nat, from: Time)
    requires windowMs > 0 && from <= at < from + windowMs
    requires Used(times, windowMs, at) + n <= max
    ensures AcceptedIn(times + Burst(n, at), max, windowMs, from) == AcceptedIn(times, max, windowMs, from) + n
    ensures n > 0 ==> WindowAfter(times + Burst(n, at), windowMs) == Some(
      if Opens(WindowAfter(times, windowMs), windowMs, at) then Window(n, at)
      else Window(WindowAfter(times, windowMs).value.count + n, WindowAfter(times, windowMs).value.windowStart))
  {
    if n == 0 {
      assert times + Burst(n, at) == times;
    } else {
      BurstPasses(times, n - 1, at, max, windowMs, from);
      assert Front(times + Burst(n, at)) == times + Burst(n - 1, at);
      assert n == 1 ==> times + Burst(0, at) == times;
    }
  }

  /** The bound is met: an opener, the rest of its budget just before its window ends, and a
      full new budget one tick later. */
  lemma SlidingWindowBoundIsMet(max: nat, windowMs: nat)
    requires max >= 1 && windowMs >= 2
    ensures var times := [0] + Burst(max - 1, windowMs - 1) + Burst(max, windowMs);
      Nondecreasing(times) && AcceptedIn(times, max, windowMs, 1) == 2 * max - 1
  {
    var opener: seq<Time> := [0];
    assert Front(opener) == [];
    assert WindowAfter(opener, windowMs) == Some(Window(1, 0));
    BurstPasses(opener, max - 1, windowMs - 1, max, windowMs, 1);
    var first := opener + Burst(max - 1, windowMs - 1);
    assert max == 1 ==> first == opener;
    BurstPasses(first, max, windowMs, max, windowMs, 1);
  }

  // ---- all keys ----

  datatype Event = Request(key: Key, now: Time) | Clear(socket: SocketId)

  function Apply(state: map<Key, Window>, e: Event): map<Key, Window> {
    match e
    case Request(key, now) => state[key := NextWindow(Lookup(state, key), WindowOf(key.kind), now)]
    case Clear(socket) => state - {Key(socket, Chat), Key(socket, Reaction)}
  }

  function StateAfter(events: seq<Event>): map<Key, Window> {
    if events == [] then map[] else Apply(StateAfter(Front(events)), Last(events))
  }

  /** The times of `key`'s requests since its socket was last cleared. */
  function History(events: seq<Event>, key: Key): seq<Time> {
    if events == [] then []
    else
      var before := History(Front(events), key);
      match Last(events)
      case Request(k, now) => if k == key then before + [now] else before
      case Clear(socket) => if socket == key.socket then [] else before
  }

  /** What is stored for a key, and so the next verdict, depends only on that key's own requests
      since its last clear. */
  lemma {:induction false} StateIsHistory(events: seq<Event>, key: Key)
    ensures Lookup(StateAfter(events), key) == WindowAfter(History(events, key), WindowOf(key.kind))
  {
    if events != [] {
      var before := History(Front(events), key);
      StateIsHistory(Front(events), key);
      assert key.kind.Chat? || key.kind.Reaction?;
      if Last(events).Request? && Last(events).key == key {
        assert Front(before + [Last(events).now]) == before;
      }
    }
  }

  ghost predicate ClockRuns(events: seq<Event>) {
    forall i, j :: 0 <= i < j < |events| && events[i].Request? && events[j].Request? ==> events[i].now <= events[j].now
  }

  lemma {:induction false} HistoryIsOrdered(events: seq<Event>, key: Key)
    requires ClockRuns(events)
    ensures Nondecreasing(History(events, key))
    ensures forall t :: t in History(events, key) ==> exists i :: 0 <= i < |events| && events[i].Request? && events[i].now == t
  {
    if events != [] {
      HistoryIsOrdered(Front(events), key);
      forall t | t in History(Front(events), key)
        ensures exists i :: 0 <= i < |events| && events[i].Request? && events[i].now == t
        ensures Last(events).Request? ==> t <= Last(events).now
      {
        var i :| 0 <= i < |events| - 1 && Front(events)[i].Request? && Front(events)[i].now == t;
        assert events[i].now == t;
      }
      var before := History(Front(events), key);
      assert forall i :: 0 <= i < |before| ==> before[i] in before;
    }
  }

  /** Whatever all the sockets do, one socket gets through at most 15 chat messages and 29
      reactions in any five seconds between two clears. */
  lemma PostsPerFiveSeconds(events: seq<Event>, socket: SocketId, from: Time)
    requires ClockRuns(events)
    ensures AcceptedIn(History(events, Key(socket, Chat)), CHAT_RATE_LIMIT_MAX, 5000, from) <= 15
    ensures AcceptedIn(History(events, Key(socket, Reaction)), REACTION_RATE_LIMIT_MAX, 5000, from) <= 29
  {
    HistoryIsOrdered(events, Key(socket, Chat));
    SlidingWindowBound(History(events, Key(socket, Chat)), CHAT_RATE_LIMIT_MAX, 5000, from);
    HistoryIsOrdered(events, Key(socket, Reaction));
    SlidingWindowBound(History(events, Key(socket, Reaction)), REACTION_RATE_LIMIT_MAX, 5000, from);
  }
}
