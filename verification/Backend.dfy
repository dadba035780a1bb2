/** The socket machine and the database machine together: what the database answers to a join, a leave,
    a disconnect or a kick is no longer arbitrary. Each handler's request runs to its end. */
module Backend {
  import opened Ids
  import opened JsMaps
  import opened RoomRequests
  import D = RoomMembership
  import P = RoomProofs
  import W = World
  import Lifecycle
  import PeerMap
  import Roster

  // ---- the composition ----

  datatype Backend = Backend(w: W.World, db: D.Db, next: D.ProcId)  // the next request's number

  datatype Event =
    | Join(socket: SocketId, room: RoomId)
    | Leave(socket: SocketId, target: Option<RoomId>)
    | Disconnect(socket: SocketId)
    | Kick(socket: SocketId, target: Option<RoomId>, user: UserId)
    | Rest(request: D.Pc)    // a request that moves no socket: over HTTP, or one that sets flags
    | Other(action: W.Action)  // a handler that asks the database nothing

  /** What the handler asks of the database. `room:join` passes no password. */
  function Asked(w: W.World, e: Event): Option<D.Pc> {
    match e
    case Join(s, room) => if s in w.data && s in w.users then Some(D.JoinStarted(room, w.users[s], false)) else None
    case Leave(s, target) =>
      if s in w.data && s in w.users && W.Target(w, s, target).Some?
      then Some(D.LeaveStarted(W.Target(w, s, target).value, w.users[s])) else None
    case Disconnect(s) =>
      if s in w.users && W.RoomOf(w, s).Some? then Some(D.LeaveStarted(W.RoomOf(w, s).value, w.users[s])) else None
    case Kick(s, target, user) =>
      if s in w.data && s in w.users && W.Target(w, s, target).Some?
      then Some(D.KickStarted(W.Target(w, s, target).value, w.users[s], user)) else None
    case Rest(request) => Some(request)
    case Other(_) => None
  }

  /** What the socket machine does, given whether the database accepts; nothing for `Rest`. */
  function Done(w: W.World, e: Event, ok: bool): W.World {
    match e
    case Join(s, room) => W.OnJoin(w, s, room, ok)
    case Leave(s, target) => W.OnLeave(w, s, target, ok)
    case Disconnect(s) => W.OnDisconnect(w, s)
    case Kick(s, target, user) => W.OnKick(w, s, target, user, ok)
    case Rest(_) => w
    case Other(a) => if a.Join? || a.Leave? || a.Disconnect? || a.Kick? then w else W.Step(w, a)
  }

  function Happens(b: Backend, e: Event): Backend {
    match Asked(b.w, e)
    case None => b.(w := Done(b.w, e, false))
    case Some(request) =>
      var db := Complete(b.db, b.next, request);
      Backend(Done(b.w, e, Accepted(db, b.next)), db, b.next + 1)
  }

  /** Nobody is in the middle of a request. */
  ghost predicate Quiescent(b: Backend) {
    b.db.locks == map[] && forall p :: p in b.db.procs ==> p < b.next
  }

  /** `states[n]` is the backend before `events[n]`. */
  datatype History = History(workers: seq<nat>, events: seq<Event>, states: seq<Backend>)

  ghost predicate IsRun(h: History) {
    |h.states| == |h.events| + 1 && h.states[0] == Backend(W.Initial(h.workers), D.EMPTY, 0) &&
    forall n {:trigger Happens(h.states[n], h.events[n])} :: 0 <= n < |h.events| ==>
      h.states[n + 1] == Happens(h.states[n], h.events[n])
  }

  /** A run that goes on. */
  function Longer(h: History, e: Event): History
    requires |h.states| == |h.events| + 1
  {
    History(h.workers, h.events + [e], h.states + [Happens(h.states[|h.events|], e)])
  }

  lemma LongerSame(h: History, e: Event, n: nat)
    requires |h.states| == |h.events| + 1 && n <= |h.events|
    ensures var h' := Longer(h, e);
      h'.states[n] == h.states[n] && (n < |h.events| ==> h'.states[n + 1] == h.states[n + 1] && h'.events[n] == h.events[n])
  {
  }

  lemma LongerFollows(h: History, e: Event, n: nat)
    requires IsRun(h) && n <= |h.events|
    ensures Longer(h, e).states[n + 1] == Happens(Longer(h, e).states[n], Longer(h, e).events[n])
  {
    LongerSame(h, e, n);
    if n < |h.events| {
      assert h.states[n + 1] == Happens(h.states[n], h.events[n]);
    }
  }

  lemma LongerIsRun(h: History, e: Event)
    requires IsRun(h)
    ensures IsRun(Longer(h, e))
  {
    var h' := Longer(h, e);
    LongerSame(h, e, 0);
    forall n {:trigger Happens(h'.states[n], h'.events[n])} | 0 <= n < |h'.events|
      ensures h'.states[n + 1] == Happens(h'.states[n], h'.events[n])
    {
      LongerFollows(h, e, n);
    }
  }

  /** Every sequence of events has its run. */
  function Play(workers: seq<nat>, events: seq<Event>): (h: History)
    ensures IsRun(h) && h.workers == workers && h.events == events
  {
    if events == [] then History(workers, [], [Backend(W.Initial(workers), D.EMPTY, 0)])
    else
      var n := |events| - 1;
      LongerIsRun(Play(workers, events[..n]), events[n]);
      assert events == events[..n] + [events[n]];
      Longer(Play(workers, events[..n]), events[n])
  }

  /** What the socket machine sees of an event. */
  function ActionOf(e: Event, ok: bool): W.Action
    requires !e.Rest? && !e.Other?
  {
    match e
    case Join(s, room) => W.Join(s, room, ok)
    case Leave(s, target) => W.Leave(s, target, ok)
    case Disconnect(s) => W.Disconnect(s)
    case Kick(s, target, user) => W.Kick(s, target, user, ok)
  }

  predicate Disciplined(w: W.World, e: Event) {
    match e
    case Join(s, room) => W.Disciplined(w, W.Join(s, room, true))
    case Leave(s, target) => W.Disciplined(w, W.Leave(s, target, true))
    case _ => true
  }

  lemma DoneKeepsAgree(w: W.World, e: Event, ok: bool)
    requires Lifecycle.Agree(w) && Disciplined(w, e)
    ensures Lifecycle.Agree(Done(w, e, ok))
  {
    match e
    case Rest(_) =>
    case Other(a) => if !(a.Join? || a.Leave? || a.Disconnect? || a.Kick?) { Lifecycle.StepKeepsAgree(w, a); }
    case _ => Lifecycle.StepKeepsAgree(w, ActionOf(e, ok));
  }

  lemma HappensKeepsQuiescent(b: Backend, e: Event)
    requires D.Inv(b.db) && Quiescent(b)
    ensures D.Inv(Happens(b, e).db) && Quiescent(Happens(b, e))
  {
    if Asked(b.w, e).Some? {
      CompleteIsQuiet(b.db, b.next, Asked(b.w, e).value);
    }
  }

  lemma NextQuiescent(h: History, n: nat)
    requires IsRun(h) && n < |h.events| && D.Inv(h.states[n].db) && Quiescent(h.states[n])
    ensures D.Inv(h.states[n + 1].db) && Quiescent(h.states[n + 1])
  {
    HappensKeepsQuiescent(h.states[n], h.events[n]);
  }

  /** Every database request of a run has run to its end, and the database invariant holds. */
  lemma {:induction false} RunsAreQuiescent(h: History, n: nat)
    requires IsRun(h) && n <= |h.events|
    ensures D.Inv(h.states[n].db) && Quiescent(h.states[n])
  {
    if n > 0 {
      RunsAreQuiescent(h, n - 1);
      NextQuiescent(h, n - 1);
    }
  }

  ghost predicate DisciplinedRun(h: History) {
    IsRun(h) && forall n :: 0 <= n < |h.events| ==> Disciplined(h.states[n].w, h.events[n])
  }

  lemma NextAgrees(h: History, n: nat)
    requires DisciplinedRun(h) && n < |h.events| && Lifecycle.Agree(h.states[n].w)
    ensures Lifecycle.Agree(h.states[n + 1].w)
  {
    DoneKeepsAgree(h.states[n].w, h.events[n], false);
    DoneKeepsAgree(h.states[n].w, h.events[n], true);
    assert h.states[n + 1] == Happens(h.states[n], h.events[n]);
  }

  lemma {:induction false} DisciplinedRunsAgree(h: History, n: nat)
    requires DisciplinedRun(h) && n <= |h.events|
    ensures Lifecycle.Agree(h.states[n].w)
  {
    if n > 0 {
      DisciplinedRunsAgree(h, n - 1);
      NextAgrees(h, n - 1);
    }
  }

  // ---- joining ----

  /** A socket in no room gets into one if and only if the room is there, active and without password, and
      its user takes part already or there is a free place. Only a new participation adds a row, as the
      host's if the user is the room's host. */
  lemma JoinsIffLetIn(b: Backend, s: SocketId, room: RoomId)
    requires Quiescent(b) && s in b.w.data && s in b.w.users && b.w.data[s] == None
    ensures var rooms, rows, user := b.db.rooms, b.db.rows, b.w.users[s];
      W.RoomOf(Happens(b, Join(s, room)).w, s) == Some(room) <==>
      room in rooms && rooms[room].isActive && !rooms[room].needsPassword &&
      (TakesPart(rows, room, user) || D.ActiveCount(rows, room) < rooms[room].maxParticipants)
    ensures var b', rooms, rows, user := Happens(b, Join(s, room)), b.db.rooms, b.db.rows, b.w.users[s];
      b'.db.rooms == rooms &&
      b'.db.rows ==
        if W.RoomOf(b'.w, s) == Some(room) && room in rooms && !TakesPart(rows, room, user)
        then rows + [D.Row(room, user, if rooms[room].hostId == user then D.Host else D.Participant, false, false, true)]
        else rows
  {
    JoinCompletes(b.db, b.next, room, b.w.users[s], false);
  }

  /** Over HTTP a password can be given, and a join adds the row that the socket's join would then find. */
  lemma RestJoins(b: Backend, room: RoomId, user: UserId, passwordOk: bool)
    requires Quiescent(b)
    ensures var b' := Happens(b, Rest(D.JoinStarted(room, user, passwordOk)));
      b'.w == b.w && Ended(b.db, b'.db, b.next) &&
      JoinDoes(b.db, b'.db, room, user, passwordOk, b'.db.procs[b.next].outcome)
  {
    JoinCompletes(b.db, b.next, room, user, passwordOk);
  }

  lemma {:induction false} AccessesOutlast(db: D.Db, p: D.ProcId, n: nat)
    ensures P.Outlasts(db, Accesses(db, p, n))
    decreases n
  {
    if n > 0 {
      P.StepOutlasts(db, D.Next(p));
      AccessesOutlast(D.Step(db, D.Next(p)), p, n - 1);
    }
  }

  lemma RoomsStay(b: Backend, e: Event, room: RoomId)
    requires room in b.db.rooms
    ensures room in Happens(b, e).db.rooms && Happens(b, e).db.rooms[room] == b.db.rooms[room]
  {
    if Asked(b.w, e).Some? {
      var db0 := D.Step(b.db, D.Start(b.next, Asked(b.w, e).value));
      P.StepOutlasts(b.db, D.Start(b.next, Asked(b.w, e).value));
      AccessesOutlast(db0, b.next, 6);
    }
  }

  /** Only an accepted join puts a socket into a room. */
  lemma RoomComesByJoin(w: W.World, e: Event, ok: bool, s: SocketId, room: RoomId)
    requires W.RoomOf(Done(w, e, ok), s) == Some(room)
    ensures W.RoomOf(w, s) == Some(room) || (e == Join(s, room) && ok && s in w.data && s in w.users)
  {
    match e
    case Other(a) => if !(a.Join? || a.Leave? || a.Disconnect? || a.Kick?) { OtherKeepsRooms(w, a, s); }
    case _ =>
  }

  lemma OtherKeepsRooms(w: W.World, a: W.Action, s: SocketId)
    requires !(a.Join? || a.Leave? || a.Disconnect? || a.Kick?)
    ensures W.RoomOf(W.Step(w, a), s).Some? ==> W.RoomOf(W.Step(w, a), s) == W.RoomOf(w, s)
  {
  }

  ghost predicate Unlocked(b: Backend, room: RoomId) {
    room in b.db.rooms && !b.db.rooms[room].needsPassword
  }

  lemma NextUnlocked(b: Backend, e: Event, s: SocketId, room: RoomId)
    requires Quiescent(b) && (W.RoomOf(b.w, s) == Some(room) ==> Unlocked(b, room))
    ensures W.RoomOf(Happens(b, e).w, s) == Some(room) ==> Unlocked(Happens(b, e), room)
  {
    if W.RoomOf(Happens(b, e).w, s) == Some(room) {
      var ok := Asked(b.w, e).Some? && Accepted(Happens(b, e).db, b.next);
      RoomComesByJoin(b.w, e, ok, s, room);
      if W.RoomOf(b.w, s) != Some(room) {
        JoinCompletes(b.db, b.next, room, b.w.users[s], false);
      }
      RoomsStay(b, e, room);
    }
  }

  lemma NextUnlockedAt(h: History, n: nat, s: SocketId, room: RoomId)
    requires IsRun(h) && n < |h.events| && Quiescent(h.states[n])
    requires W.RoomOf(h.states[n].w, s) == Some(room) ==> Unlocked(h.states[n], room)
    ensures W.RoomOf(h.states[n + 1].w, s) == Some(room) ==> Unlocked(h.states[n + 1], room)
  {
    NextUnlocked(h.states[n], h.events[n], s, room);
  }

  /** `room:join` passes no password, so in no run, disciplined or not, is a socket in a room that needs
      one; not even its host's. */
  lemma {:induction false} NoSocketBehindPassword(h: History, n: nat, s: SocketId, room: RoomId)
    requires IsRun(h) && n <= |h.events|
    ensures W.RoomOf(h.states[n].w, s) == Some(room) ==> Unlocked(h.states[n], room)
  {
    if n > 0 {
      NoSocketBehindPassword(h, n - 1, s, room);
      RunsAreQuiescent(h, n - 1);
      NextUnlockedAt(h, n - 1, s, room);
    }
  }

  // ---- leaving ----

  /** The rows are the same but that the user's participation in the room, if any, has ended. */
  ghost predicate OnlyEnds(rows: seq<D.Row>, rows': seq<D.Row>, room: RoomId, user: UserId) {
    |rows'| == |rows| &&
    forall i :: 0 <= i < |rows| ==>
      rows'[i] == rows[i].(left := rows[i].left || (rows[i].room == room && rows[i].user == user))
  }

  lemma LeftAtOnlyEnds(rows: seq<D.Row>, i: D.RowId, room: RoomId, user: UserId)
    requires D.OneActiveRow(rows) && IsRowOf(rows, i, room, user)
    ensures OnlyEnds(rows, LeftAt(rows, i), room, user)
  {
    assert forall j :: 0 <= j < |rows| && rows[j].room == room && rows[j].user == user ==> j == i || rows[j].left;
  }

  lemma NothingToEnd(rows: seq<D.Row>, room: RoomId, user: UserId)
    requires !TakesPart(rows, room, user)
    ensures OnlyEnds(rows, rows, room, user)
  {
    forall j: nat | j < |rows| && rows[j].room == room && rows[j].user == user ensures rows[j].left {
      assert !IsRowOf(rows, j, room, user);
    }
  }

  lemma LeaveOnlyEnds(db: D.Db, p: D.ProcId, room: RoomId, user: UserId)
    requires D.OneActiveRow(db.rows) && p !in db.procs
    ensures var db' := Complete(db, p, D.LeaveStarted(room, user));
      db'.rooms == db.rooms && OnlyEnds(db.rows, db'.rows, room, user) && (Accepted(db', p) <==> TakesPart(db.rows, room, user))
  {
    var db' := Complete(db, p, D.LeaveStarted(room, user));
    LeaveCompletes(db, p, room, user);
    if TakesPart(db.rows, room, user) {
      LeftAtOnlyEnds(db.rows, db'.procs[p].outcome.row, room, user);
    } else {
      NothingToEnd(db.rows, room, user);
    }
  }

  /** The database's answer decides: a `room:leave`, of whatever room, takes the socket out of its own and
      ends its user's participation in the room named, if and only if the user has an active row there.
      Otherwise nothing at all happens. */
  lemma LeavesIffActive(b: Backend, s: SocketId, target: Option<RoomId>, room: RoomId)
    requires Quiescent(b) && D.OneActiveRow(b.db.rows) && s in b.w.data && s in b.w.users
    requires target == Some(room) || (target == None && b.w.data[s] == Some(room))
    ensures var b' := Happens(b, Leave(s, target));
      (if TakesPart(b.db.rows, room, b.w.users[s]) then W.RoomOf(b'.w, s) == None else b'.w == b.w) &&
      b'.db.rooms == b.db.rooms && OnlyEnds(b.db.rows, b'.db.rows, room, b.w.users[s])
  {
    LeaveOnlyEnds(b.db, b.next, room, b.w.users[s]);
    LeaveTakesOutIff(b.w, s, target, true);
    LeaveTakesOutIff(b.w, s, target, false);
  }

  /** At any moment of a disciplined run. */
  lemma LeavesIffActiveInRun(h: History, n: nat, s: SocketId, target: Option<RoomId>, room: RoomId)
    requires DisciplinedRun(h) && n < |h.events| && h.events[n] == Leave(s, target) && s in h.states[n].w.data
    requires target == Some(room) || (target == None && h.states[n].w.data[s] == Some(room))
    ensures s in h.states[n].w.users
    ensures var b, b' := h.states[n], h.states[n + 1];
      (if TakesPart(b.db.rows, room, b.w.users[s]) then W.RoomOf(b'.w, s) == None else b'.w == b.w) &&
      b'.db.rooms == b.db.rooms && OnlyEnds(b.db.rows, b'.db.rows, room, b.w.users[s])
  {
    RunsAreQuiescent(h, n);
    DisciplinedRunsAgree(h, n);
    LeavesIffActive(h.states[n], s, target, room);
    assert h.states[n + 1] == Happens(h.states[n], h.events[n]);
  }

  lemma LeaveTakesOutIff(w: W.World, s: SocketId, target: Option<RoomId>, ok: bool)
    requires s in w.data && W.Target(w, s, target).Some?
    ensures if ok then W.RoomOf(W.OnLeave(w, s, target, ok), s) == None else W.OnLeave(w, s, target, ok) == w
  {
  }

  /** Over HTTP a leave ends the participation and leaves the sockets where they are. */
  lemma RestLeaves(b: Backend, room: RoomId, user: UserId)
    requires Quiescent(b) && D.OneActiveRow(b.db.rows)
    ensures var b' := Happens(b, Rest(D.LeaveStarted(room, user)));
      b'.w == b.w && b'.db.rooms == b.db.rooms && OnlyEnds(b.db.rows, b'.db.rows, room, user)
  {
    LeaveOnlyEnds(b.db, b.next, room, user);
  }

  // ---- disconnecting ----

  /** A disconnect ends the user's participation in the socket's room, whatever else is in the rows; that
      of a socket in no room changes no row. */
  lemma DisconnectEnds(b: Backend, s: SocketId)
    requires Quiescent(b) && D.OneActiveRow(b.db.rows) && s in b.w.data && s in b.w.users
    ensures var b' := Happens(b, Disconnect(s));
      b'.db.rooms == b.db.rooms && s !in b'.w.data &&
      if b.w.data[s].Some? then OnlyEnds(b.db.rows, b'.db.rows, b.w.data[s].value, b.w.users[s])
      else b'.db.rows == b.db.rows
  {
    if b.w.data[s].Some? {
      LeaveOnlyEnds(b.db, b.next, b.w.data[s].value, b.w.users[s]);
    }
  }

  lemma {:induction false} EndedIsNotListed(rows: seq<D.Row>, room: RoomId, user: UserId)
    requires !TakesPart(rows, room, user)
    ensures forall k :: 0 <= k < |Roster.GetParticipants(rows, room)| ==> Roster.GetParticipants(rows, room)[k].userId != user
  {
    var ps := Roster.GetParticipants(rows, room);
    Roster.ParticipantsAreActiveRows(rows, room);
    forall k | 0 <= k < |ps| ensures ps[k].userId != user {
      assert !IsRowOf(rows, ps[k].rowId, room, user);
    }
  }

  /** In every disciplined run: when a socket disconnects, its user is no longer in its room's roster. */
  lemma DisconnectLeavesRoster(h: History, n: nat, s: SocketId, room: RoomId)
    requires DisciplinedRun(h) && n < |h.events| && h.events[n] == Disconnect(s) && W.RoomOf(h.states[n].w, s) == Some(room)
    ensures s in h.states[n].w.users
    ensures var roster := Roster.GetParticipants(h.states[n + 1].db.rows, room);
      forall k :: 0 <= k < |roster| ==> roster[k].userId != h.states[n].w.users[s]
  {
    RunsAreQuiescent(h, n);
    DisciplinedRunsAgree(h, n);
    DisconnectEnds(h.states[n], s);
    assert h.states[n + 1] == Happens(h.states[n], h.events[n]);
    EndedIsNotListed(h.states[n + 1].db.rows, room, h.states[n].w.users[s]);
  }

  // ---- kicking ----

  lemma KickOnlyEnds(db: D.Db, p: D.ProcId, room: RoomId, acting: UserId, user: UserId)
    requires D.OneActiveRow(db.rows) && p !in db.procs
    ensures var db' := Complete(db, p, D.KickStarted(room, acting, user));
      db'.rooms == db.rooms &&
      if MayKick(db, room, acting, user) then OnlyEnds(db.rows, db'.rows, room, user) else db'.rows == db.rows
  {
    var db' := Complete(db, p, D.KickStarted(room, acting, user));
    KickCompletes(db, p, room, acting, user);
    if !TakesPart(db.rows, room, user) {
      NothingToEnd(db.rows, room, user);
    } else if MayKick(db, room, acting, user) {
      LeftAtOnlyEnds(db.rows, db'.procs[p].outcome.row, room, user);
    }
  }

  /** A kick ends the user's participation exactly if the room's host asks and means somebody else. */
  lemma KickEnds(b: Backend, s: SocketId, target: Option<RoomId>, user: UserId, room: RoomId)
    requires Quiescent(b) && D.OneActiveRow(b.db.rows)
    requires s in b.w.data && s in b.w.users && W.Target(b.w, s, target) == Some(room)
    ensures var b' := Happens(b, Kick(s, target, user));
      b'.db.rooms == b.db.rooms &&
      if room in b.db.rooms && b.db.rooms[room].hostId == b.w.users[s] && user != b.w.users[s]
      then OnlyEnds(b.db.rows, b'.db.rows, room, user) else b'.db.rows == b.db.rows
  {
    KickOnlyEnds(b.db, b.next, room, b.w.users[s], user);
  }

  /** The socket that a kick takes out: the one the roster names for the user, when the room's host kicks
      somebody else who takes part. */
  ghost predicate Evicts(b: Backend, s: SocketId, user: UserId, room: RoomId, victim: SocketId)
    requires s in b.w.users
  {
    room in b.db.rooms && b.db.rooms[room].hostId == b.w.users[s] && user != b.w.users[s] && TakesPart(b.db.rows, room, user) &&
    PeerMap.SocketOfUser(b.w.peers, room, user) == Some(victim)
  }

  /** A kick takes that socket out of its room, and no other out of any. */
  lemma KickEvicts(b: Backend, s: SocketId, target: Option<RoomId>, user: UserId, room: RoomId, x: SocketId)
    requires Quiescent(b) && Lifecycle.Agree(b.w) && s in b.w.data && s in b.w.users && W.Target(b.w, s, target) == Some(room)
    ensures W.RoomOf(Happens(b, Kick(s, target, user)).w, x) ==
      if Evicts(b, s, user, room, x) then None else W.RoomOf(b.w, x)
  {
    KickCompletes(b.db, b.next, room, b.w.users[s], user);
    PeerMap.SocketOfUserIsPeer(b.w.peers, room, user);
    VictimHasRoom(b.w, room, user);
    KickTakesOut(b.w, s, target, user, room, x);
  }

  lemma VictimHasRoom(w: W.World, room: RoomId, user: UserId)
    requires Lifecycle.Agree(w)
    ensures var victim := PeerMap.SocketOfUser(w.peers, room, user);
      victim.Some? ==> victim.value in w.data && w.data[victim.value] == Some(room)
  {
    PeerMap.SocketOfUserIsPeer(w.peers, room, user);
    if PeerMap.SocketOfUser(w.peers, room, user).Some? {
      assert PeerMap.IsPeer(w.peers, room, PeerMap.SocketOfUser(w.peers, room, user).value);
    }
  }

  lemma KickTakesOut(w: W.World, s: SocketId, target: Option<RoomId>, user: UserId, room: RoomId, x: SocketId)
    requires Lifecycle.Agree(w) && s in w.data && W.Target(w, s, target) == Some(room)
    ensures W.OnKick(w, s, target, user, false) == w
    ensures W.RoomOf(W.OnKick(w, s, target, user, true), x) ==
      if PeerMap.SocketOfUser(w.peers, room, user) == Some(x) then None else W.RoomOf(w, x)
  {
    VictimHasRoom(w, room, user);
  }

  // ---- a user with two sockets ----

  /** The host creates room 5, joins it with two sockets and leaves it with both. */
  const TWO_LEAVES := [
    Rest(D.CreateStarted(5, 10, 2, false)), Other(W.Connect(1, 10)), Other(W.Connect(2, 10)), Join(1, 5), Join(2, 5),
    Leave(1, None), Leave(2, None)]

  ghost predicate RoomFive(db: D.Db, rows: seq<D.Row>) {
    5 in db.rooms && db.rooms[5] == D.Room(10, 2, true, false) && db.rows == rows
  }

  const HOST_ROW := D.Row(5, 10, D.Host, false, false, true)

  lemma CreateAt(h: History)
    requires IsRun(h) && h.events == TWO_LEAVES
    ensures RoomFive(h.states[1].db, [HOST_ROW]) && h.states[1].w == W.Initial(h.workers)
  {
    CreateCompletes(D.EMPTY, 0, 5, 10, 2, false);
    assert h.states[1] == Happens(h.states[0], h.events[0]);
  }

  lemma ConnectAt(h: History, n: nat, s: SocketId)
    requires IsRun(h) && n < |h.events| && h.events[n] == Other(W.Connect(s, 10)) && s !in h.states[n].w.users
    ensures var b, b' := h.states[n], h.states[n + 1];
      b'.db == b.db && b'.w.users == b.w.users[s := 10] && b'.w.data == b.w.data[s := None]
  {
    assert h.states[n + 1] == Happens(h.states[n], h.events[n]);
  }

  lemma JoinAt(h: History, n: nat, s: SocketId)
    requires IsRun(h) && n < |h.events| && h.events[n] == Join(s, 5) && RoomFive(h.states[n].db, [HOST_ROW])
    requires s in h.states[n].w.data && s in h.states[n].w.users && h.states[n].w.users[s] == 10
    ensures var b, b' := h.states[n], h.states[n + 1];
      RoomFive(b'.db, [HOST_ROW]) && b'.w.users == b.w.users && b'.w.data == b.w.data[s := Some(5)]
  {
    var b := h.states[n];
    RunsAreQuiescent(h, n);
    assert IsRowOf(b.db.rows, 0, 5, 10);
    JoinCompletes(b.db, b.next, 5, 10, false);
    RoomsStay(b, Join(s, 5), 5);
    JoinData(b.w, s, 5);
    assert h.states[n + 1] == Happens(h.states[n], h.events[n]);
  }

  lemma JoinData(w: W.World, s: SocketId, room: RoomId)
    requires s in w.data && s in w.users
    ensures W.OnJoin(w, s, room, true).data == w.data[s := Some(room)] && W.OnJoin(w, s, room, true).users == w.users
  {
  }

  lemma LeaveData(w: W.World, s: SocketId)
    requires s in w.data && w.data[s].Some?
    ensures W.OnLeave(w, s, None, true).data == w.data[s := None] && W.OnLeave(w, s, None, true).users == w.users
    ensures W.OnLeave(w, s, None, false) == w
  {
  }

  lemma LeaveAt(h: History, n: nat, s: SocketId)
    requires IsRun(h) && n < |h.events| && h.events[n] == Leave(s, None)
    requires s in h.states[n].w.data && s in h.states[n].w.users
    requires h.states[n].w.data[s] == Some(5) && h.states[n].w.users[s] == 10
    ensures var b, b' := h.states[n], h.states[n + 1];
      b'.w.users == b.w.users && OnlyEnds(b.db.rows, b'.db.rows, 5, 10) &&
      b'.w.data == if TakesPart(b.db.rows, 5, 10) then b.w.data[s := None] else b.w.data
  {
    var b := h.states[n];
    RunsAreQuiescent(h, n);
    LeaveOnlyEnds(b.db, b.next, 5, 10);
    LeaveData(b.w, s);
    assert h.states[n + 1] == Happens(h.states[n], h.events[n]);
  }

  lemma BothIn(h: History)
    requires IsRun(h) && h.events == TWO_LEAVES
    ensures RoomFive(h.states[5].db, [HOST_ROW]) && h.states[5].w.users == map[1 := 10, 2 := 10]
    ensures h.states[5].w.data == map[1 := Some(5), 2 := Some(5)]
    ensures forall n :: 0 <= n < 5 ==> Disciplined(h.states[n].w, h.events[n])
  {
    CreateAt(h);
    ConnectAt(h, 1, 1);
    ConnectAt(h, 2, 2);
    JoinAt(h, 3, 1);
    JoinAt(h, 4, 2);
  }

  lemma OneOut(h: History)
    requires IsRun(h) && h.events == TWO_LEAVES && RoomFive(h.states[5].db, [HOST_ROW])
    requires h.states[5].w.users == map[1 := 10, 2 := 10] && h.states[5].w.data == map[1 := Some(5), 2 := Some(5)]
    ensures Disciplined(h.states[5].w, h.events[5]) && Disciplined(h.states[6].w, h.events[6])
    ensures h.states[7].w.users == map[1 := 10, 2 := 10] && h.states[7].w.data == map[1 := None, 2 := Some(5)]
    ensures h.states[7].db.rows == [HOST_ROW.(left := true)]
  {
    assert IsRowOf(h.states[5].db.rows, 0, 5, 10);
    LeaveAt(h, 5, 1);
    assert h.states[6].db.rows == [HOST_ROW.(left := true)];
    LeaveAt(h, 6, 2);
  }

  lemma TwoLeaves(h: History)
    requires IsRun(h) && h.events == TWO_LEAVES
    ensures DisciplinedRun(h)
    ensures h.states[7].w.users == map[1 := 10, 2 := 10] && h.states[7].w.data == map[1 := None, 2 := Some(5)]
    ensures h.states[7].db.rows == [HOST_ROW.(left := true)]
  {
    BothIn(h);
    OneOut(h);
  }

  /** The first leave ends the user's one participation, so the second is refused: its socket is still in
      the room and a peer of it, and the roster is empty. */
  lemma SecondSocketCannotLeave(workers: seq<nat>) returns (h: History)
    ensures DisciplinedRun(h) && h.workers == workers && h.events == TWO_LEAVES
    ensures var b := h.states[7];
      W.RoomOf(b.w, 2) == Some(5) && PeerMap.PeerOf(b.w.peers, 5, 2, 10) && Roster.GetParticipants(b.db.rows, 5) == []
  {
    h := Play(workers, TWO_LEAVES);
    TwoLeaves(h);
    DisciplinedRunsAgree(h, 7);
    RoomMakesPeer(h.states[7].w, 2, 5);
    NobodyTakesPart();
  }

  lemma RoomMakesPeer(w: W.World, s: SocketId, room: RoomId)
    requires Lifecycle.Agree(w) && s in w.users && W.RoomOf(w, s) == Some(room)
    ensures PeerMap.PeerOf(w.peers, room, s, w.users[s])
  {
    assert PeerMap.IsPeer(w.peers, room, s);
  }

  lemma NobodyTakesPart()
    ensures Roster.GetParticipants([HOST_ROW.(left := true)], 5) == []
  {
    assert [HOST_ROW.(left := true)][..0] == [];
  }
}
