/** The cached room list of `roomService.js`: how old an answer of `listRooms` can be. */
module RoomListCache {
  import opened Ids
  import Pagination

  type Time = int  // milliseconds
  type ProcId = int

  const ROOM_LIST := "cache:rooms:list"
  const ROOM_LIST_TTL_MS := 15000

  // ---- keys ----

  function Decimal(n: nat): string {
    if n < 10 then [('0' as int + n) as char] else Decimal(n / 10) + [('0' as int + n % 10) as char]
  }

  function PageKey(page: nat, limit: nat): string {
    ROOM_LIST + ":" + Decimal(page) + ":" + Decimal(limit)
  }

  lemma {:induction false} DecimalHasDigits(n: nat)
    ensures |Decimal(n)| >= 1 && (n >= 10 ==> |Decimal(n)| >= 2) && forall c :: c in Decimal(n) ==> '0' <= c <= '9'
  {
    if n >= 10 {
      DecimalHasDigits(n / 10);
    }
  }

  lemma {:induction false} DecimalInjective(m: nat, n: nat)
    requires Decimal(m) == Decimal(n)
    ensures m == n
  {
    DecimalHasDigits(m);
    DecimalHasDigits(n);
    var dm, dn := Decimal(m), Decimal(n);
    assert dm[|dm| - 1] == dn[|dn| - 1];
    if m >= 10 {
      assert dm[..|dm| - 1] == Decimal(m / 10) && dn[..|dn| - 1] == Decimal(n / 10);
      DecimalInjective(m / 10, n / 10);
    }
  }

  lemma ColonSplits(a: string, b: string, c: string, d: string)
    requires a + ":" + b == c + ":" + d && ':' !in a && ':' !in c
    ensures a == c && b == d
  {
    var s, t := a + ":" + b, c + ":" + d;
    assert s[|a|] == ':' && t[|c|] == ':';
    assert forall i :: 0 <= i < |c| ==> t[i] in c;
    assert forall i :: 0 <= i < |a| ==> s[i] in a;
    assert a == s[..|a|] && c == t[..|c|];
    assert b == s[|a| + 1..] && d == t[|c| + 1..];
  }

  /** Two pages never share a key, and the invalidated key is no page's. */
  lemma PageKeysDiffer(page: nat, limit: nat, page': nat, limit': nat)
    ensures PageKey(page, limit) == PageKey(page', limit') ==> page == page' && limit == limit'
    ensures PageKey(page, limit) != ROOM_LIST
  {
    DecimalHasDigits(page);
    DecimalHasDigits(page');
    var a, b, c, d := Decimal(page), Decimal(limit), Decimal(page'), Decimal(limit');
    if PageKey(page, limit) == PageKey(page', limit') {
      var n := |ROOM_LIST| + 1;
      assert PageKey(page, limit)[n..] == a + ":" + b && PageKey(page', limit')[n..] == c + ":" + d;
      ColonSplits(a, b, c, d);
      DecimalInjective(page, page');
      DecimalInjective(limit, limit');
    }
  }

  // ---- the machine ----

  datatype Listing = Listing(rooms: seq<RoomId>, page: nat, limit: nat, total: nat, totalPages: nat)

  /** The database: the active rooms, newest first, at every moment. */
  type Database = Time -> seq<RoomId>

  /** The count of the rooms and the rows of the page are two queries, in either order. */
  datatype Moments = Moments(counted: Time, selected: Time)

  function Query(db: Database, read: Moments, page: nat, limit: nat): Listing
    requires page >= 1 && limit >= 1
  {
    var total := |db(read.counted)|;
    Listing(Pagination.Page(db(read.selected), page, limit), page, limit, total, Pagination.TotalPages(total, limit))
  }

  datatype Cached = Cached(value: Listing, read: Moments, storedAt: Time)

  /** A `listRooms` call between its accesses: before the Redis `get`, before the two queries, between
      them, before `setEx`. */
  datatype Call =
    | Asked(page: nat, limit: nat)
    | Missed(page: nat, limit: nat)
    | Counted(page: nat, limit: nat, total: nat, countedAt: Time)
    | Selected(page: nat, limit: nat, rooms: seq<RoomId>, selectedAt: Time)
    | Queried(value: Listing, read: Moments)

  /** `read` and `storedAt` say where an answer came from; no code depends on them. */
  datatype Answer = Answer(page: nat, limit: nat, value: Listing, at: Time, read: Moments, storedAt: Time)

  datatype State = State(now: Time, cache: map<string, Cached>, calls: map<ProcId, Call>, answers: seq<Answer>)

  datatype Action =
    | Wait(ms: nat)
    | List(proc: ProcId, page: nat, limit: nat)
    | Resume(proc: ProcId, redisOk: bool, countFirst: bool)
    | Invalidate(redisOk: bool)  // what createRoom does

  /** A Redis `get`: an entry is gone once its time is over. */
  function Get(s: State, key: string): map<string, Cached> {
    if key in s.cache && s.now < s.cache[key].storedAt + ROOM_LIST_TTL_MS then map[key := s.cache[key]] else map[]
  }

  function Step(db: Database, s: State, a: Action): State {
    match a
    case Wait(ms) => s.(now := s.now + ms)
    case List(p, page, limit) =>
      if p in s.calls || page < 1 || limit < 1 then s else s.(calls := s.calls[p := Asked(page, limit)])
    case Invalidate(redisOk) => if redisOk then s.(cache := s.cache - {ROOM_LIST}) else s
    case Resume(p, redisOk, countFirst) =>
      if p !in s.calls then s
      else
        match s.calls[p]
        case Asked(page, limit) =>
          var key := PageKey(page, limit);
          if redisOk && key in Get(s, key) then
            var hit := s.cache[key];
            s.(calls := s.calls - {p},
               answers := s.answers + [Answer(page, limit, hit.value, s.now, hit.read, hit.storedAt)])
          else s.(calls := s.calls[p := Missed(page, limit)])
        case Missed(page, limit) =>
          if page < 1 || limit < 1 then s
          else if countFirst then s.(calls := s.calls[p := Counted(page, limit, |db(s.now)|, s.now)])
          else s.(calls := s.calls[p := Selected(page, limit, Pagination.Page(db(s.now), page, limit), s.now)])
        case Counted(page, limit, total, countedAt) =>
          if page < 1 || limit < 1 then s
          else
            var value := Listing(Pagination.Page(db(s.now), page, limit), page, limit, total, Pagination.TotalPages(total, limit));
            s.(calls := s.calls[p := Queried(value, Moments(countedAt, s.now))])
        case Selected(page, limit, rooms, selectedAt) =>
          if page < 1 || limit < 1 then s
          else
            var total := |db(s.now)|;
            var value := Listing(rooms, page, limit, total, Pagination.TotalPages(total, limit));
            s.(calls := s.calls[p := Queried(value, Moments(s.now, selectedAt))])
        case Queried(value, read) =>
          var key := PageKey(value.page, value.limit);
          s.(cache := if redisOk then s.cache[key := Cached(value, read, s.now)] else s.cache,
             calls := s.calls - {p},
             answers := s.answers + [Answer(value.page, value.limit, value, s.now, read, s.now)])
  }

  function Run(db: Database, start: Time, actions: seq<Action>): State {
    if actions == [] then State(start, map[], map[], [])
    else Step(db, Run(db, start, actions[..|actions| - 1]), actions[|actions| - 1])
  }

  // ---- bounded staleness ----

  /** So many pages of `limit` rows hold the rows, and one fewer does not. */
  predicate Covers(totalPages: nat, limit: nat, total: nat) {
    (totalPages - 1) * limit < total <= totalPages * limit
  }

  /** The requested page as the database had it when it was selected, and the number of rooms when they
      were counted. */
  ghost predicate TrueAt(db: Database, value: Listing, page: nat, limit: nat, read: Moments) {
    page >= 1 && limit >= 1 && value.page == page && value.limit == limit &&
    value.rooms == Pagination.Page(db(read.selected), page, limit) &&
    value.total == |db(read.counted)| && Covers(value.totalPages, limit, value.total)
  }

  ghost predicate ReadBy(read: Moments, at: Time) {
    read.counted <= at && read.selected <= at
  }

  ghost predicate CacheOk(db: Database, s: State) {
    forall page: nat, limit: nat {:trigger PageKey(page, limit)} :: PageKey(page, limit) in s.cache ==>
      var e := s.cache[PageKey(page, limit)];
      TrueAt(db, e.value, page, limit, e.read) && ReadBy(e.read, e.storedAt) && e.storedAt <= s.now
  }

  ghost predicate CallsOk(db: Database, s: State) {
    forall p :: p in s.calls ==>
      match s.calls[p]
      case Asked(page, limit) => page >= 1 && limit >= 1
      case Missed(page, limit) => page >= 1 && limit >= 1
      case Counted(page, limit, total, countedAt) => page >= 1 && limit >= 1 && total == |db(countedAt)| && countedAt <= s.now
      case Selected(page, limit, rooms, selectedAt) =>
        page >= 1 && limit >= 1 && rooms == Pagination.Page(db(selectedAt), page, limit) && selectedAt <= s.now
      case Queried(value, read) => TrueAt(db, value, value.page, value.limit, read) && ReadBy(read, s.now)
  }

  /** Its rows and its total were the database's when they were read; that entry was stored at
      `storedAt`, less than the TTL before the answer. */
  ghost predicate Fresh(db: Database, x: Answer) {
    TrueAt(db, x.value, x.page, x.limit, x.read) && ReadBy(x.read, x.storedAt) &&
    x.storedAt <= x.at < x.storedAt + ROOM_LIST_TTL_MS
  }

  ghost predicate Inv(db: Database, s: State) {
    CacheOk(db, s) && CallsOk(db, s) && forall i :: 0 <= i < |s.answers| ==> Fresh(db, s.answers[i])
  }

  lemma StepKeepsCache(db: Database, s: State, a: Action)
    requires CacheOk(db, s) && CallsOk(db, s)
    ensures CacheOk(db, Step(db, s, a))
  {
    var s' := Step(db, s, a);
    forall page: nat, limit: nat {:trigger PageKey(page, limit)} | PageKey(page, limit) in s'.cache
      ensures var e := s'.cache[PageKey(page, limit)];
        TrueAt(db, e.value, page, limit, e.read) && ReadBy(e.read, e.storedAt) && e.storedAt <= s'.now
    {
      if a.Resume? && a.proc in s.calls && s.calls[a.proc].Queried? {
        var value := s.calls[a.proc].value;
        PageKeysDiffer(page, limit, value.page, value.limit);
      }
    }
  }

  lemma StepKeepsCalls(db: Database, s: State, a: Action)
    requires CallsOk(db, s)
    ensures CallsOk(db, Step(db, s, a))
  {
    if a.Resume? && a.proc in s.calls {
      match s.calls[a.proc]
      case Counted(_, limit, total, _) => Pagination.TotalPagesBounds(total, limit);
      case Selected(_, limit, _, _) => Pagination.TotalPagesBounds(|db(s.now)|, limit);
      case _ =>
    }
  }

  lemma StepAnswersFresh(db: Database, s: State, a: Action)
    requires Inv(db, s)
    ensures forall i :: 0 <= i < |Step(db, s, a).answers| ==> Fresh(db, Step(db, s, a).answers[i])
  {
  }

  lemma StepKeepsInv(db: Database, s: State, a: Action)
    requires Inv(db, s)
    ensures Inv(db, Step(db, s, a))
  {
    StepKeepsCache(db, s, a);
    StepKeepsCalls(db, s, a);
    StepAnswersFresh(db, s, a);
  }

  /** Every answer holds the requested page as the database had it at one moment and the total as it had
      it at one moment, each at most 15 s, plus the delay between that read and the `setEx`, before;
      whatever is created, invalidated or lost. Its number of pages is the least that holds the total. */
  lemma {:induction false} BoundedStaleness(db: Database, start: Time, actions: seq<Action>)
    ensures Inv(db, Run(db, start, actions))
    ensures forall x :: x in Run(db, start, actions).answers ==>
      TrueAt(db, x.value, x.page, x.limit, x.read) && ReadBy(x.read, x.at) &&
      x.at - x.read.selected < 15000 + (x.storedAt - x.read.selected) &&
      x.at - x.read.counted < 15000 + (x.storedAt - x.read.counted) &&
      (x.value.totalPages - 1) * x.limit < x.value.total <= x.value.totalPages * x.limit
  {
    if actions != [] {
      BoundedStaleness(db, start, actions[..|actions| - 1]);
      StepKeepsInv(db, Run(db, start, actions[..|actions| - 1]), actions[|actions| - 1]);
    }
    assert forall x :: x in Run(db, start, actions).answers ==> Fresh(db, x);
  }

  /** The documentation says that the cache is invalidated on create; the key deleted there is no
      page's, so no answer changes: only the TTL bounds staleness. */
  lemma InvalidationChangesNoAnswer(s: State, page: nat, limit: nat, redisOk: bool, db: Database)
    ensures Get(Step(db, s, Invalidate(redisOk)), PageKey(page, limit)) == Get(s, PageKey(page, limit))
  {
    PageKeysDiffer(page, limit, page, limit);
  }

  /** The bound is met: a page that is read and stored, a creation with its invalidation, and a second
      request just before the entry expires. */
  function LateHit(page: nat, limit: nat): seq<Action> {
    [List(1, page, limit), Resume(1, true, true), Resume(1, true, true), Resume(1, true, true), Resume(1, true, true),
     Wait(1), Invalidate(true), Wait(ROOM_LIST_TTL_MS - 2), List(2, page, limit), Resume(2, true, true)]
  }

  lemma RunOneMore(db: Database, start: Time, actions: seq<Action>, a: Action)
    ensures Run(db, start, actions + [a]) == Step(db, Run(db, start, actions), a)
  {
    assert (actions + [a])[..|actions|] == actions;
  }

  lemma FirstAnswer(db: Database, page: nat, limit: nat)
    requires page >= 1 && limit >= 1
    ensures var value, read := Query(db, Moments(0, 0), page, limit), Moments(0, 0);
      Run(db, 0, LateHit(page, limit)[..5]) ==
        State(0, map[PageKey(page, limit) := Cached(value, read, 0)], map[], [Answer(page, limit, value, 0, read, 0)])
  {
    ThenAsked(db, page, limit);
    ThenMissed(db, page, limit);
    ThenCounted(db, page, limit);
    ThenStored(db, page, limit);
  }

  lemma ThenAsked(db: Database, page: nat, limit: nat)
    requires page >= 1 && limit >= 1
    ensures Run(db, 0, LateHit(page, limit)[..1]) == State(0, map[], map[1 := Asked(page, limit)], [])
  {
    var all := LateHit(page, limit);
    RunOneMore(db, 0, [], all[0]);
    assert all[..1] == [] + [all[0]];
  }

  lemma ThenMissed(db: Database, page: nat, limit: nat)
    requires page >= 1 && limit >= 1
    requires Run(db, 0, LateHit(page, limit)[..1]) == State(0, map[], map[1 := Asked(page, limit)], [])
    ensures Run(db, 0, LateHit(page, limit)[..2]) == State(0, map[], map[1 := Missed(page, limit)], [])
  {
    var all := LateHit(page, limit);
    RunOneMore(db, 0, all[..1], all[1]);
    assert all[..2] == all[..1] + [all[1]];
  }

  lemma ThenCounted(db: Database, page: nat, limit: nat)
    requires page >= 1 && limit >= 1
    requires Run(db, 0, LateHit(page, limit)[..2]) == State(0, map[], map[1 := Missed(page, limit)], [])
    ensures Run(db, 0, LateHit(page, limit)[..3]) == State(0, map[], map[1 := Counted(page, limit, |db(0)|, 0)], [])
  {
    var all := LateHit(page, limit);
    RunOneMore(db, 0, all[..2], all[2]);
    assert all[..3] == all[..2] + [all[2]];
  }

  lemma ThenStored(db: Database, page: nat, limit: nat)
    requires page >= 1 && limit >= 1
    requires Run(db, 0, LateHit(page, limit)[..3]) == State(0, map[], map[1 := Counted(page, limit, |db(0)|, 0)], [])
    ensures var value, read := Query(db, Moments(0, 0), page, limit), Moments(0, 0);
      Run(db, 0, LateHit(page, limit)[..5]) ==
        State(0, map[PageKey(page, limit) := Cached(value, read, 0)], map[], [Answer(page, limit, value, 0, read, 0)])
  {
    var all := LateHit(page, limit);
    var value, read := Query(db, Moments(0, 0), page, limit), Moments(0, 0);
    RunOneMore(db, 0, all[..3], all[3]);
    assert all[..4] == all[..3] + [all[3]];
    assert Run(db, 0, all[..4]) == State(0, map[], map[1 := Queried(value, read)], []);
    RunOneMore(db, 0, all[..4], all[4]);
    assert all[..5] == all[..4] + [all[4]];
  }

  /** Whatever the database does meanwhile, the second answer is the first one's, as old as can be. */
  lemma StalenessBoundIsMet(db: Database, page: nat, limit: nat)
    requires page >= 1 && limit >= 1
    ensures var answers := Run(db, 0, LateHit(page, limit)).answers;
      |answers| == 2 && answers[1] == Answer(page, limit, Query(db, Moments(0, 0), page, limit), 14999, Moments(0, 0), 0)
  {
    var all := LateHit(page, limit);
    var five := all[..5];
    FirstAnswer(db, page, limit);
    PageKeysDiffer(page, limit, page, limit);
    RunOneMore(db, 0, five, all[5]);
    RunOneMore(db, 0, five + [all[5]], all[6]);
    RunOneMore(db, 0, five + [all[5]] + [all[6]], all[7]);
    RunOneMore(db, 0, five + [all[5]] + [all[6]] + [all[7]], all[8]);
    RunOneMore(db, 0, five + [all[5]] + [all[6]] + [all[7]] + [all[8]], all[9]);
    assert all == five + [all[5]] + [all[6]] + [all[7]] + [all[8]] + [all[9]];
  }

  /** A reachable stale answer: room 2 is created at time 1 and the cache invalidated, and 14998 ms later
      the first page is still the one without it. */
  lemma StaleAfterCreate()
    ensures var db: Database := at => if at >= 1 then [2, 1] else [1];
      var answers := Run(db, 0, LateHit(1, 20)).answers;
      |answers| == 2 && var x := answers[1];
      x.value.rooms == [1] && x.value.total == 1 && 2 in db(x.at) && 2 in Pagination.Page(db(x.at), 1, 20) &&
      x.at - x.storedAt == 14999
  {
    StalenessBoundIsMet(at => if at >= 1 then [2, 1] else [1], 1, 20);
  }

  class RoomList {
    const db: Database
    var now: Time
    var cache: map<string, Cached>
    var calls: map<ProcId, Call>
    var answers: seq<Answer>

    ghost function View(): State
      reads this
    {
      State(now, cache, calls, answers)
    }

    constructor (db: Database, start: Time)
      ensures this.db == db && View() == Run(db, start, [])
    {
      this.db := db;
      now, cache, calls, answers := start, map[], map[], [];
    }

    method InvalidateRoomListCache(redisOk: bool)
      modifies this
      ensures View() == Step(db, old(View()), Invalidate(redisOk))
    {
      if redisOk {
        cache := cache - {ROOM_LIST};
      }
    }

    /** `listRooms`, from one `await` to the next. */
    method ListRooms(me: ProcId, redisOk: bool, countFirst: bool)
      requires Inv(db, View()) && me in calls
      modifies this
      ensures View() == Step(db, old(View()), Resume(me, redisOk, countFirst))
    {
      match calls[me]
      case Asked(page, limit) =>
        var cacheKey := PageKey(page, limit);
        if redisOk && cacheKey in cache && now < cache[cacheKey].storedAt + ROOM_LIST_TTL_MS {
          var cached := cache[cacheKey];
          answers := answers + [Answer(page, limit, cached.value, now, cached.read, cached.storedAt)];
          calls := calls - {me};
          return;
        }
        calls := calls[me := Missed(page, limit)];
      case Missed(page, limit) =>
        if countFirst {
          calls := calls[me := Counted(page, limit, |db(now)|, now)];
        } else {
          calls := calls[me := Selected(page, limit, SelectRows(page, limit), now)];
        }
      case Counted(page, limit, count, countedAt) =>
        var result := Listing(SelectRows(page, limit), page, limit, count, Pagination.TotalPages(count, limit));
        calls := calls[me := Queried(result, Moments(countedAt, now))];
      case Selected(page, limit, rows, selectedAt) =>
        var count := |db(now)|;
        var result := Listing(rows, page, limit, count, Pagination.TotalPages(count, limit));
        calls := calls[me := Queried(result, Moments(now, selectedAt))];
      case Queried(result, read) =>
        if redisOk {
          cache := cache[PageKey(result.page, result.limit) := Cached(result, read, now)];
        }
        answers := answers + [Answer(result.page, result.limit, result, now, read, now)];
        calls := calls - {me};
    }

    /** The rows of the page, by its offset. */
    function SelectRows(page: nat, limit: nat): seq<RoomId>
      requires page >= 1
      reads this
    {
      var offset := (page - 1) * limit;
      Pagination.Slice(db(now), offset, limit)
    }
  }
}
