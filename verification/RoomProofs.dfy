/** Capacity and membership history over all interleavings. */
module RoomProofs {
  import opened Ids
  import opened RoomMembership

  function One(x: Row, room: RoomId): nat { if Active(x, room) then 1 else 0 }

  lemma CountAppend(rows: seq<Row>, x: Row, room: RoomId)
    ensures ActiveCount(rows + [x], room) == ActiveCount(rows, room) + One(x, room)
  {
    assert (rows + [x])[..|rows|] == rows;
  }

  lemma {:induction false} NobodyInNoRoom(rows: seq<Row>, room: RoomId)
    requires forall i :: 0 <= i < |rows| ==> rows[i].room != room
    ensures ActiveCount(rows, room) == 0
  {
    if rows != [] {
      NobodyInNoRoom(rows[..|rows| - 1], room);
    }
  }

  /** Rows are appended, marked as left and have their flags changed; nothing else. */
  ghost predicate Grows(rows: seq<Row>, rows': seq<Row>) {
    |rows| <= |rows'| &&
    forall i :: 0 <= i < |rows| ==>
      rows'[i].room == rows[i].room && rows'[i].user == rows[i].user && rows'[i].role == rows[i].role &&
      (rows[i].left ==> rows'[i].left)
  }

  ghost predicate Outlasts(db: Db, db': Db) {
    Grows(db.rows, db'.rows) && forall r :: r in db.rooms ==> r in db'.rooms && db'.rooms[r] == db.rooms[r]
  }

  lemma JoinOutlasts(db: Db, p: ProcId)
    requires p in db.procs && IsJoin(db.procs[p])
    ensures Outlasts(db, AdvanceJoin(db, p, db.procs[p]))
  {
  }

  lemma CreateOutlasts(db: Db, p: ProcId)
    requires p in db.procs && IsCreate(db.procs[p])
    ensures Outlasts(db, AdvanceCreate(db, p, db.procs[p]))
  {
  }

  lemma SaveOutlasts(db: Db, p: ProcId)
    requires p in db.procs && IsSave(db.procs[p])
    ensures Outlasts(db, AdvanceSave(db, p, db.procs[p]))
  {
  }

  lemma FindChangesNoTable(db: Db, p: ProcId)
    requires p in db.procs && IsFind(db.procs[p])
    ensures var db' := AdvanceFind(db, p, db.procs[p]); db'.rooms == db.rooms && db'.rows == db.rows
  {
  }

  /** No step removes a row or a room, moves a row, changes its role, or makes it active again. */
  lemma StepOutlasts(db: Db, a: Action)
    ensures Outlasts(db, Step(db, a))
  {
    match a
    case Next(p) =>
      if p in db.procs {
        if IsJoin(db.procs[p]) {
          JoinOutlasts(db, p);
        } else if IsCreate(db.procs[p]) {
          CreateOutlasts(db, p);
        } else if IsSave(db.procs[p]) {
          SaveOutlasts(db, p);
        } else {
          FindChangesNoTable(db, p);
        }
      }
    case _ =>
  }

  // ---- locks ----

  lemma FinishKeepsLocks(db: Db, p: ProcId, outcome: Outcome)
    requires LocksOk(db)
    ensures LocksOk(Finish(db, p, outcome))
  {
  }

  lemma JoinKeepsLocks(db: Db, p: ProcId)
    requires LocksOk(db) && p in db.procs && IsJoin(db.procs[p])
    ensures LocksOk(AdvanceJoin(db, p, db.procs[p]))
  {
  }

  lemma CreateKeepsLocks(db: Db, p: ProcId)
    requires LocksOk(db) && p in db.procs && IsCreate(db.procs[p])
    ensures LocksOk(AdvanceCreate(db, p, db.procs[p]))
  {
  }

  lemma SaveKeepsLocks(db: Db, p: ProcId)
    requires LocksOk(db) && p in db.procs && IsSave(db.procs[p])
    ensures LocksOk(AdvanceSave(db, p, db.procs[p]))
  {
  }

  /** A read takes no lock. */
  lemma FindLeavesLocks(db: Db, p: ProcId)
    requires p in db.procs && IsFind(db.procs[p])
    ensures var db' := AdvanceFind(db, p, db.procs[p]);
      (db'.locks == db.locks || db'.locks == Released(db.locks, p)) && p in db'.procs && !IsJoin(db'.procs[p])
  {
  }

  lemma LeftLocksOk(db: Db, db': Db, p: ProcId)
    requires LocksOk(db) && p in db.procs && !IsJoin(db.procs[p]) && p in db'.procs && !IsJoin(db'.procs[p])
    requires db'.procs == db.procs[p := db'.procs[p]] && (db'.locks == db.locks || db'.locks == Released(db.locks, p))
    ensures LocksOk(db')
  {
  }

  lemma FindKeepsLocks(db: Db, p: ProcId)
    requires LocksOk(db) && p in db.procs && IsFind(db.procs[p])
    ensures LocksOk(AdvanceFind(db, p, db.procs[p]))
  {
    FindLeavesLocks(db, p);
    FindMovesOne(db, p);
    LeftLocksOk(db, AdvanceFind(db, p, db.procs[p]), p);
  }

  lemma StepKeepsLocks(db: Db, a: Action)
    requires LocksOk(db)
    ensures LocksOk(Step(db, a))
  {
    match a
    case Next(p) =>
      if p in db.procs {
        if IsJoin(db.procs[p]) {
          JoinKeepsLocks(db, p);
        } else if IsCreate(db.procs[p]) {
          CreateKeepsLocks(db, p);
        } else if IsSave(db.procs[p]) {
          SaveKeepsLocks(db, p);
        } else {
          FindKeepsLocks(db, p);
        }
      }
    case Abort(p) => FinishKeepsLocks(db, p, Failed);
    case _ =>
  }

  // ---- rows that only change in place ----

  lemma {:induction false} CountOnlyFalls(rows: seq<Row>, rows': seq<Row>, room: RoomId)
    requires |rows'| == |rows| && Grows(rows, rows')
    ensures ActiveCount(rows', room) <= ActiveCount(rows, room)
  {
    if rows != [] {
      var n := |rows| - 1;
      CountOnlyFalls(rows[..n], rows'[..n], room);
    }
  }

  /** What any request knows survives the saves of others: the rely condition of the lock holder. */
  lemma KnowsSurvivesSaves(db: Db, db': Db, pc: Pc)
    requires Outlasts(db, db') && |db'.rows| == |db.rows| && Knows(db, pc)
    ensures Knows(db', pc)
  {
    match pc
    case JoinCounted(r, _, _, _) => CountOnlyFalls(db.rows, db'.rows, r);
    case JoinInserted(r, _, row) =>
      CountOnlyFalls(db.rows, db'.rows, r);
      assert FindActive(db'.rows, r, row.user).Some? ==> Active(db.rows[FindActive(db'.rows, r, row.user).value], r);
    case _ =>
  }

  /** It also survives a commit, unless it is about the very room the commit adds a row to. */
  lemma KnowsSurvivesCommit(db: Db, db': Db, pc: Pc, x: Row)
    requires Outlasts(db, db') && db'.rows == db.rows + [x] && Knows(db, pc) && !HoldsLock(pc, x.room)
    ensures Knows(db', pc)
  {
    match pc
    case JoinCounted(r, _, _, _) => CountAppend(db.rows, x, r);
    case JoinInserted(r, _, row) =>
      CountAppend(db.rows, x, r);
      assert forall i :: 0 <= i < |db.rows| ==> db'.rows[i] == db.rows[i];
    case _ =>
  }

  lemma EverSurvives(rows: seq<Row>, rows': seq<Row>, room: RoomId, user: UserId)
    requires Grows(rows, rows') && Ever(rows, room, user)
    ensures Ever(rows', room, user)
  {
    var i :| 0 <= i < |rows| && rows[i].room == room && rows[i].user == user;
    assert rows'[i].room == room;
  }

  /** The part of the invariant that is about the tables alone. */
  ghost predicate DataOk(db: Db) {
    TablesOk(db) && OneActiveRow(db.rows) && WithinCapacity(db)
  }

  lemma SavesKeepData(db: Db, db': Db)
    requires DataOk(db) && Outlasts(db, db') && |db'.rows| == |db.rows| && db'.rooms == db.rooms
    ensures DataOk(db')
  {
    forall r | r in db.rooms
      ensures Ever(db'.rows, r, db.rooms[r].hostId) && ActiveCount(db'.rows, r) <= db.rooms[r].maxParticipants
    {
      EverSurvives(db.rows, db'.rows, r, db.rooms[r].hostId);
      CountOnlyFalls(db.rows, db'.rows, r);
    }
  }

  lemma JoinCommitKeepsData(db: Db, p: ProcId)
    requires DataOk(db) && p in db.procs && db.procs[p].JoinInserted? && Knows(db, db.procs[p])
    ensures DataOk(Advance(db, p))
  {
    var db', x := Advance(db, p), db.procs[p].inserted;
    assert db'.rows == db.rows + [x] && db'.rooms == db.rooms;
    forall r | r in db.rooms
      ensures Ever(db'.rows, r, db.rooms[r].hostId) && ActiveCount(db'.rows, r) <= db.rooms[r].maxParticipants
    {
      EverSurvives(db.rows, db'.rows, r, db.rooms[r].hostId);
      CountAppend(db.rows, x, r);
    }
  }

  lemma CreateCommit(db: Db, p: ProcId)
    requires p in db.procs && db.procs[p].CreateHostInserted? && db.procs[p].room !in db.rooms
    ensures var room := db.procs[p].room;
      Advance(db, p).rows == db.rows + [db.procs[p].inserted] && Advance(db, p).rooms == db.rooms[room := db.procs[p].created]
  {
  }

  lemma NewRoomWithinCapacity(db: Db, db': Db, room: RoomId, created: Room, x: Row)
    requires TablesOk(db) && WithinCapacity(db) && room !in db.rooms && created.maxParticipants >= 2
    requires db'.rows == db.rows + [x] && db'.rooms == db.rooms[room := created] && x.room == room
    ensures WithinCapacity(db')
  {
    forall r | r in db'.rooms ensures ActiveCount(db'.rows, r) <= db'.rooms[r].maxParticipants {
      CountAppend(db.rows, x, r);
      if r == room {
        NobodyInNoRoom(db.rows, room);
      }
    }
  }

  lemma NewRoomTables(db: Db, db': Db, room: RoomId, created: Room, x: Row)
    requires TablesOk(db) && OneActiveRow(db.rows) && room !in db.rooms
    requires db'.rows == db.rows + [x] && db'.rooms == db.rooms[room := created]
    requires x.room == room && x.user == created.hostId && x.role == Host
    ensures TablesOk(db') && OneActiveRow(db'.rows)
  {
    assert db'.rows[|db.rows|] == x;
    forall r | r in db'.rooms ensures Ever(db'.rows, r, db'.rooms[r].hostId) {
      if r != room {
        EverSurvives(db.rows, db'.rows, r, db.rooms[r].hostId);
      }
    }
  }

  lemma CreateCommitKeepsData(db: Db, p: ProcId)
    requires DataOk(db) && p in db.procs && db.procs[p].CreateHostInserted? && Knows(db, db.procs[p])
    requires db.procs[p].room !in db.rooms
    ensures DataOk(Advance(db, p))
  {
    var pc := db.procs[p];
    CreateCommit(db, p);
    NewRoomTables(db, Advance(db, p), pc.room, pc.created, pc.inserted);
    NewRoomWithinCapacity(db, Advance(db, p), pc.room, pc.created, pc.inserted);
  }

  /** The two commits are the only steps that add a row. */
  predicate Commits(db: Db, a: Action) {
    a.Next? && a.proc in db.procs &&
    (db.procs[a.proc].JoinInserted? || (db.procs[a.proc].CreateHostInserted? && db.procs[a.proc].room !in db.rooms))
  }

  lemma OtherStepsOnlySave(db: Db, a: Action)
    requires !Commits(db, a)
    ensures |Step(db, a).rows| == |db.rows| && Step(db, a).rooms == db.rooms
  {
  }

  ghost predicate MovesOnly(db: Db, db': Db, p: ProcId) {
    p in db'.procs && db'.procs == db.procs[p := db'.procs[p]]
  }

  lemma JoinMovesOne(db: Db, p: ProcId)
    requires p in db.procs && IsJoin(db.procs[p])
    ensures MovesOnly(db, AdvanceJoin(db, p, db.procs[p]), p)
  {
  }

  lemma CreateMovesOne(db: Db, p: ProcId)
    requires p in db.procs && IsCreate(db.procs[p])
    ensures MovesOnly(db, AdvanceCreate(db, p, db.procs[p]), p)
  {
  }

  lemma SaveMovesOne(db: Db, p: ProcId)
    requires p in db.procs && IsSave(db.procs[p])
    ensures MovesOnly(db, AdvanceSave(db, p, db.procs[p]), p)
  {
  }

  lemma FindMovesOne(db: Db, p: ProcId)
    requires p in db.procs && IsFind(db.procs[p])
    ensures MovesOnly(db, AdvanceFind(db, p, db.procs[p]), p)
  {
  }

  lemma StepMovesOneRequest(db: Db, a: Action)
    ensures MovesOnly(db, Step(db, a), a.proc) || Step(db, a) == db
  {
    match a
    case Next(p) =>
      if p in db.procs {
        if IsJoin(db.procs[p]) {
          JoinMovesOne(db, p);
        } else if IsCreate(db.procs[p]) {
          CreateMovesOne(db, p);
        } else if IsSave(db.procs[p]) {
          SaveMovesOne(db, p);
        } else {
          FindMovesOne(db, p);
        }
      }
    case _ =>
  }

  lemma JoinKnows(db: Db, p: ProcId)
    requires DataOk(db) && p in db.procs && IsJoin(db.procs[p]) && Knows(db, db.procs[p])
    ensures p in Advance(db, p).procs && Knows(Advance(db, p), Advance(db, p).procs[p])
  {
  }

  lemma CreateKnows(db: Db, p: ProcId)
    requires p in db.procs && IsCreate(db.procs[p]) && Knows(db, db.procs[p])
    ensures p in Advance(db, p).procs && Knows(Advance(db, p), Advance(db, p).procs[p])
  {
  }

  lemma SaveKnows(db: Db, p: ProcId)
    requires p in db.procs && IsSave(db.procs[p])
    ensures p in Advance(db, p).procs && Knows(Advance(db, p), Advance(db, p).procs[p])
  {
  }

  lemma FindKnows(db: Db, p: ProcId)
    requires TablesOk(db) && p in db.procs && IsFind(db.procs[p]) && Knows(db, db.procs[p])
    ensures p in Advance(db, p).procs && Knows(Advance(db, p), Advance(db, p).procs[p])
  {
  }

  lemma ActorStillKnows(db: Db, p: ProcId)
    requires DataOk(db) && p in db.procs && Knows(db, db.procs[p])
    ensures p in Advance(db, p).procs && Knows(Advance(db, p), Advance(db, p).procs[p])
  {
    if IsJoin(db.procs[p]) {
      JoinKnows(db, p);
    } else if IsCreate(db.procs[p]) {
      CreateKnows(db, p);
    } else if IsSave(db.procs[p]) {
      SaveKnows(db, p);
    } else {
      FindKnows(db, p);
    }
  }

  lemma BystanderStillKnows(db: Db, a: Action, pc: Pc)
    requires Knows(db, pc) && (Commits(db, a) ==> !HoldsLock(pc, db.procs[a.proc].inserted.room))
    ensures Knows(Step(db, a), pc)
  {
    StepOutlasts(db, a);
    if Commits(db, a) {
      KnowsSurvivesCommit(db, Step(db, a), pc, db.procs[a.proc].inserted);
    } else {
      OtherStepsOnlySave(db, a);
      KnowsSurvivesSaves(db, Step(db, a), pc);
    }
  }

  lemma StepKeepsData(db: Db, a: Action)
    requires DataOk(db) && AllKnow(db)
    ensures DataOk(Step(db, a))
  {
    StepOutlasts(db, a);
    if !Commits(db, a) {
      OtherStepsOnlySave(db, a);
      SavesKeepData(db, Step(db, a));
    } else if db.procs[a.proc].JoinInserted? {
      JoinCommitKeepsData(db, a.proc);
    } else {
      CreateCommitKeepsData(db, a.proc);
    }
  }

  lemma StepKeepsInv(db: Db, a: Action)
    requires Inv(db)
    ensures Inv(Step(db, a))
  {
    var db' := Step(db, a);
    StepKeepsData(db, a);
    StepKeepsLocks(db, a);
    StepMovesOneRequest(db, a);
    forall q | q in db'.procs ensures Knows(db', db'.procs[q]) {
      if q == a.proc && a.Next? && q in db.procs {
        ActorStillKnows(db, q);
      } else if q in db.procs && db'.procs[q] == db.procs[q] {
        BystanderStillKnows(db, a, db.procs[q]);
      }
    }
  }

  // ---- over every run ----

  lemma {:induction false} InvInEveryRun(db: Db, actions: seq<Action>)
    requires Inv(db)
    ensures Inv(Run(db, actions))
    decreases |actions|
  {
    if actions != [] {
      StepKeepsInv(db, actions[0]);
      InvInEveryRun(Step(db, actions[0]), actions[1..]);
    }
  }

  /** The lock holder's inserted row, which only its own transaction sees. */
  function Uncommitted(db: Db, room: RoomId): nat {
    if exists p :: p in db.procs && db.procs[p].JoinInserted? && db.procs[p].room == room then 1 else 0
  }

  /** Capacity: whatever joins, leaves, kicks and updates interleave, the committed active rows of a
      room and a join's uncommitted one never exceed `maxParticipants`, and at most one join of a
      room has an uncommitted row. */
  lemma CapacityInEveryRun(actions: seq<Action>, room: RoomId)
    requires room in Run(EMPTY, actions).rooms
    ensures var db := Run(EMPTY, actions);
      ActiveCount(db.rows, room) + Uncommitted(db, room) <= db.rooms[room].maxParticipants <= 500
    ensures var db := Run(EMPTY, actions);
      forall p, q :: p in db.procs && q in db.procs && HoldsLock(db.procs[p], room) && HoldsLock(db.procs[q], room) ==> p == q
  {
    InvInEveryRun(EMPTY, actions);
    CapacityIsValid(EMPTY, actions);
  }

  ghost predicate ValidMax(db: Db) {
    (forall r :: r in db.rooms ==> 2 <= db.rooms[r].maxParticipants <= 500) && AllKnow(db)
  }

  lemma {:induction false} CapacityIsValid(db: Db, actions: seq<Action>)
    requires Inv(db) && ValidMax(db)
    ensures ValidMax(Run(db, actions))
    decreases |actions|
  {
    if actions != [] {
      StepKeepsInv(db, actions[0]);
      StepKeepsMax(db, actions[0]);
      CapacityIsValid(Step(db, actions[0]), actions[1..]);
    }
  }

  lemma StepKeepsMax(db: Db, a: Action)
    requires ValidMax(db)
    ensures forall r :: r in Step(db, a).rooms ==> 2 <= Step(db, a).rooms[r].maxParticipants <= 500
  {
    if !Commits(db, a) {
      OtherStepsOnlySave(db, a);
    }
  }

  /** While a join holds its room's lock, no step of another request raises the room's active count. */
  lemma LockHolderRelies(db: Db, a: Action, p: ProcId, room: RoomId)
    requires Inv(db) && p in db.procs && HoldsLock(db.procs[p], room) && a.proc != p
    ensures ActiveCount(Step(db, a).rows, room) <= ActiveCount(db.rows, room)
  {
    StepOutlasts(db, a);
    if Commits(db, a) {
      CountAppend(db.rows, db.procs[a.proc].inserted, room);
    } else {
      OtherStepsOnlySave(db, a);
      CountOnlyFalls(db.rows, Step(db, a).rows, room);
    }
  }

  lemma {:induction false} RunOutlasts(db: Db, actions: seq<Action>)
    ensures Outlasts(db, Run(db, actions))
    decreases |actions|
  {
    if actions != [] {
      StepOutlasts(db, actions[0]);
      RunOutlasts(Step(db, actions[0]), actions[1..]);
    }
  }

  lemma {:induction false} RunAppend(db: Db, a: seq<Action>, b: seq<Action>)
    ensures Run(db, a + b) == Run(Run(db, a), b)
    decreases |a|
  {
    if a == [] {
      assert a + b == b;
    } else {
      assert (a + b)[1..] == a[1..] + b;
      RunAppend(Step(db, a[0]), a[1..], b);
    }
  }

  /** Membership history. At every moment of every run a user has at most one active row in a room,
      a row's role is host exactly if its user is the room's host, and the host has a row; later, no
      row has moved, changed its role or become active again, and who ever took part still has. */
  lemma MembershipHistory(earlier: seq<Action>, later: seq<Action>)
    ensures var db := Run(EMPTY, earlier);
      OneActiveRow(db.rows) &&
      (forall r :: r in db.rooms ==> Ever(db.rows, r, db.rooms[r].hostId)) &&
      (forall i :: 0 <= i < |db.rows| ==>
         db.rows[i].room in db.rooms && !db.rows[i].role.Moderator? &&
         (db.rows[i].role.Host? <==> db.rows[i].user == db.rooms[db.rows[i].room].hostId))
    ensures var db, db' := Run(EMPTY, earlier), Run(EMPTY, earlier + later);
      Grows(db.rows, db'.rows) &&
      (forall r, u :: Ever(db.rows, r, u) ==> Ever(db'.rows, r, u)) &&
      (forall r :: r in db.rooms ==> r in db'.rooms && db'.rooms[r] == db.rooms[r])
  {
    InvInEveryRun(EMPTY, earlier);
    RunAppend(EMPTY, earlier, later);
    var db, db' := Run(EMPTY, earlier), Run(EMPTY, earlier + later);
    RunOutlasts(db, later);
    forall r, u | Ever(db.rows, r, u) ensures Ever(db'.rows, r, u) {
      EverSurvives(db.rows, db'.rows, r, u);
    }
  }

  /** What a step makes of a row that is there: only the three saves change one, each the row it found
      and only the fields it means to write. */
  function Rewritten(row: Row, i: RowId, pc: Pc): Row {
    match pc
    case LeaveFound(j) => if i == j then row.(left := true) else row
    case KickFound(_, j) => if i == j then row.(left := true) else row
    case FlagsFound(j, isMuted, isCameraOn) =>
      if i != j then row
      else row.(muted := if isMuted.Some? then isMuted.value else row.muted,
                camera := if isCameraOn.Some? then isCameraOn.value else row.camera)
    case _ => row
  }

  lemma RowAfter(db: Db, a: Action, i: RowId)
    requires i < |db.rows|
    ensures i < |Step(db, a).rows|
    ensures Step(db, a).rows[i] ==
      if a.Next? && a.proc in db.procs then Rewritten(db.rows[i], i, db.procs[a.proc]) else db.rows[i]
  {
    if a.Next? && a.proc in db.procs && IsFind(db.procs[a.proc]) {
      FindChangesNoTable(db, a.proc);
    }
  }

  /** Exactly the two saves of `leftAt` end a participation; a kick's is never the host's. */
  lemma WhoEndsParticipation(db: Db, a: Action, i: RowId)
    requires Inv(db) && i < |db.rows| && !db.rows[i].left
    ensures i < |Step(db, a).rows|
    ensures Step(db, a).rows[i].left <==>
      a.Next? && a.proc in db.procs &&
      (db.procs[a.proc] == LeaveFound(i) || db.procs[a.proc] == KickFound(db.rows[i].room, i))
    ensures a.Next? && a.proc in db.procs && db.procs[a.proc].KickFound? && Step(db, a).rows[i].left ==>
      !db.rows[i].role.Host?
  {
    RowAfter(db, a, i);
  }

  // ---- who may kick ----

  /** The room's host asked for `target`, somebody else, to be kicked. */
  ghost predicate KickBegun(db: Db, actions: seq<Action>, p: ProcId, room: RoomId, target: UserId) {
    room in db.rooms && target != db.rooms[room].hostId &&
    Start(p, KickStarted(room, db.rooms[room].hostId, target)) in actions
  }

  /** A request in the middle of a kick goes back to its beginning; the row it found is its target's. */
  ghost predicate KickTraced(db: Db, actions: seq<Action>, p: ProcId) {
    p in db.procs ==>
      match db.procs[p]
      case KickStarted(_, _, _) => Start(p, db.procs[p]) in actions
      case KickAllowed(room, target) => KickBegun(db, actions, p, room, target)
      case KickFound(room, i) => i < |db.rows| && db.rows[i].room == room && KickBegun(db, actions, p, room, db.rows[i].user)
      case _ => true
  }

  lemma KickTracedStays(db: Db, db': Db, actions: seq<Action>, a: Action, p: ProcId)
    requires KickTraced(db, actions, p) && Outlasts(db, db')
    requires p in db.procs && p in db'.procs && db'.procs[p] == db.procs[p]
    ensures KickTraced(db', actions + [a], p)
  {
  }

  predicate InKick(pc: Pc) {
    pc.KickStarted? || pc.KickAllowed? || pc.KickFound?
  }

  lemma KickComesFromKick(db: Db, p: ProcId)
    requires p in db.procs && p in Advance(db, p).procs && InKick(Advance(db, p).procs[p])
    ensures IsFind(db.procs[p]) || Advance(db, p) == db
  {
  }

  /** How a request comes to stand in a kick. */
  lemma FindInKick(db: Db, p: ProcId)
    requires p in db.procs && IsFind(db.procs[p]) && p in AdvanceFind(db, p, db.procs[p]).procs
    requires InKick(AdvanceFind(db, p, db.procs[p]).procs[p])
    ensures var pc, pc' := db.procs[p], AdvanceFind(db, p, db.procs[p]).procs[p];
      if pc.KickStarted? then
        pc.room in db.rooms && pc.acting == db.rooms[pc.room].hostId && pc.target != pc.acting &&
        pc' == KickAllowed(pc.room, pc.target)
      else
        pc.KickAllowed? && pc'.KickFound? && pc'.room == pc.room && pc'.row < |db.rows| &&
        Active(db.rows[pc'.row], pc.room) && db.rows[pc'.row].user == pc.target
  {
  }

  lemma ActorKickTraced(db: Db, actions: seq<Action>, p: ProcId)
    requires KickTraced(db, actions, p) && p in db.procs && p in Advance(db, p).procs && InKick(Advance(db, p).procs[p])
    ensures KickTraced(Advance(db, p), actions + [Next(p)], p)
  {
    StepOutlasts(db, Next(p));
    KickComesFromKick(db, p);
    if Advance(db, p) == db {
      KickTracedStays(db, db, actions, Next(p), p);
    } else {
      FindInKick(db, p);
      FindChangesNoTable(db, p);
    }
  }

  lemma NextKickTraced(db: Db, actions: seq<Action>, a: Action, p: ProcId)
    requires KickTraced(db, actions, p)
    ensures KickTraced(Step(db, a), actions + [a], p)
  {
    if p in Step(db, a).procs && InKick(Step(db, a).procs[p]) {
      if a == Next(p) {
        ActorKickTraced(db, actions, p);
      } else {
        StepMovesOneRequest(db, a);
        if p in db.procs && Step(db, a).procs[p] == db.procs[p] {
          StepOutlasts(db, a);
          KickTracedStays(db, Step(db, a), actions, a, p);
        }
      }
    }
  }

  /** Only a room's host kicks, never itself, and the row found is that of the user it named, in any
      interleaving. */
  lemma {:induction false} KickersAreHosts(actions: seq<Action>, p: ProcId)
    ensures KickTraced(Run(EMPTY, actions), actions, p)
  {
    if actions != [] {
      var n := |actions| - 1;
      KickersAreHosts(actions[..n], p);
      RunAppend(EMPTY, actions[..n], [actions[n]]);
      assert actions == actions[..n] + [actions[n]];
      assert Run(Run(EMPTY, actions[..n]), [actions[n]]) == Step(Run(EMPTY, actions[..n]), actions[n]);
      NextKickTraced(Run(EMPTY, actions[..n]), actions[..n], actions[n], p);
    }
  }

  // ---- locks are given back ----

  /** How many accesses a lock holder has left before it commits. */
  function AccessesLeft(pc: Pc): nat {
    match pc
    case JoinLocked(_, _, _) => 3
    case JoinCounted(_, _, _, _) => 2
    case JoinInserted(_, _, _) => 1
    case _ => 0
  }

  lemma HolderMovesOn(db: Db, room: RoomId)
    requires LocksOk(db) && room in db.locks
    ensures var p := db.locks[room];
      var db' := Step(db, Next(p));
      LocksOk(db') && p in db.procs && AccessesLeft(db.procs[p]) > 0 &&
      (room in db'.locks ==>
         db'.locks[room] == p && p in db'.procs && AccessesLeft(db'.procs[p]) < AccessesLeft(db.procs[p]))
  {
    StepKeepsLocks(db, Next(db.locks[room]));
  }

  /** Nobody else moves the holder or takes its lock away; a crash of its own frees it. */
  lemma HolderUndisturbed(db: Db, a: Action, room: RoomId)
    requires LocksOk(db) && room in db.locks && a != Next(db.locks[room])
    ensures var p, db' := db.locks[room], Step(db, a);
      LocksOk(db') &&
      (room in db'.locks ==> db'.locks[room] == p && p in db.procs && p in db'.procs && db'.procs[p] == db.procs[p])
  {
    StepKeepsLocks(db, a);
    StepMovesOneRequest(db, a);
  }

  /** How often `a` occurs. */
  function Count(actions: seq<Action>, a: Action): nat {
    if actions == [] then 0 else (if actions[0] == a then 1 else 0) + Count(actions[1..], a)
  }

  lemma {:induction false} CountConcat(a: seq<Action>, b: seq<Action>, x: Action)
    ensures Count(a + b, x) == Count(a, x) + Count(b, x)
    decreases |a|
  {
    if a == [] {
      assert a + b == b;
    } else {
      assert (a + b)[1..] == a[1..] + b;
      CountConcat(a[1..], b, x);
    }
  }

  lemma {:induction false} CountOthers(others: seq<Action>, x: Action)
    requires forall i :: 0 <= i < |others| ==> others[i] != x
    ensures Count(others, x) == 0
  {
    if others != [] {
      CountOthers(others[1..], x);
    }
  }

  /** Whatever the other requests do, a room's lock has been free at some moment once its holder has
      had the accesses it has left, at most three: no join waits for a holder that waits. */
  lemma {:induction false} LockIsReleased(db: Db, room: RoomId, actions: seq<Action>) returns (k: nat)
    requires LocksOk(db) && room in db.locks && db.locks[room] in db.procs
    requires Count(actions, Next(db.locks[room])) >= AccessesLeft(db.procs[db.locks[room]])
    ensures AccessesLeft(db.procs[db.locks[room]]) <= 3
    ensures 0 < k <= |actions| && room !in Run(db, actions[..k]).locks
    decreases |actions|
  {
    var p := db.locks[room];
    assert AccessesLeft(db.procs[p]) > 0;
    var db' := Step(db, actions[0]);
    if actions[0] == Next(p) {
      HolderMovesOn(db, room);
    } else {
      HolderUndisturbed(db, actions[0], room);
    }
    if room in db'.locks {
      k := LockIsReleased(db', room, actions[1..]);
      k := k + 1;
      assert actions[..k][0] == actions[0] && actions[..k][1..] == actions[1..][..k - 1];
    } else {
      k := 1;
      assert actions[..1][1..] == [];
      assert Run(db, actions[..1]) == db';
    }
  }
}
