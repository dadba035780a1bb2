/** A request that runs alone, from its start to its answer: what it answers and what it does to the rows. */
module RoomRequests {
  import opened Ids
  import opened JsMaps
  import opened RoomMembership
  import opened RoomProofs

  // ---- one request, alone ----

  function Accesses(db: Db, p: ProcId, n: nat): Db
    decreases n
  {
    if n == 0 then db else Accesses(Step(db, Next(p)), p, n - 1)
  }

  /** No request has more than six accesses. */
  function Complete(db: Db, p: ProcId, request: Pc): Db {
    Accesses(Step(db, Start(p, request)), p, 6)
  }

  predicate Accepted(db: Db, p: ProcId) {
    p in db.procs && db.procs[p].Done? && db.procs[p].outcome.GotRow?
  }

  lemma {:induction false} DoneStays(db: Db, p: ProcId, n: nat)
    requires p in db.procs && db.procs[p].Done?
    ensures Accesses(db, p, n) == db
  {
    if n > 0 {
      assert Step(db, Next(p)) == db;
      DoneStays(db, p, n - 1);
    }
  }

  /** The request is over and has touched no room. */
  ghost predicate Ended(db: Db, db': Db, p: ProcId) {
    db'.rooms == db.rooms && p in db'.procs && db'.procs[p].Done?
  }

  predicate IsRowOf(rows: seq<Row>, i: RowId, room: RoomId, user: UserId) {
    i < |rows| && rows[i].room == room && rows[i].user == user && !rows[i].left
  }

  ghost predicate TakesPart(rows: seq<Row>, room: RoomId, user: UserId) {
    exists i: nat :: IsRowOf(rows, i, room, user)
  }

  function LeftAt(rows: seq<Row>, i: RowId): seq<Row>
    requires i < |rows|
  {
    rows[i := rows[i].(left := true)]
  }

  lemma FindsRowOf(rows: seq<Row>, room: RoomId, user: UserId)
    ensures TakesPart(rows, room, user) <==> FindActive(rows, room, user).Some?
    ensures TakesPart(rows, room, user) ==> IsRowOf(rows, FindActive(rows, room, user).value, room, user)
  {
    if FindActive(rows, room, user).Some? {
      assert IsRowOf(rows, FindActive(rows, room, user).value, room, user);
    }
  }

  // ---- leaving, being kicked, flags ----

  lemma SaveLeftEnds(db: Db, p: ProcId, i: RowId, n: nat)
    requires p in db.procs && (db.procs[p] == LeaveFound(i) || (db.procs[p].KickFound? && db.procs[p].row == i))
    requires i < |db.rows| && n >= 1
    ensures var db' := Accesses(db, p, n);
      Ended(db, db', p) && db'.procs[p] == Done(GotRow(i)) && db'.rows == LeftAt(db.rows, i)
  {
    var db1 := Step(db, Next(p));
    assert db1 == Finish(db.(rows := LeftAt(db.rows, i)), p, GotRow(i));
    DoneStays(db1, p, n - 1);
  }

  lemma FinishEnds(db: Db, p: ProcId, n: nat, outcome: Outcome)
    requires p in db.procs && n >= 1 && Step(db, Next(p)) == Finish(db, p, outcome)
    ensures var db' := Accesses(db, p, n); Ended(db, db', p) && db'.procs[p] == Done(outcome) && db'.rows == db.rows
  {
    DoneStays(Finish(db, p, outcome), p, n - 1);
  }

  /** A leave marks the user's active row and answers it, or finds none and changes nothing. */
  lemma LeaveCompletes(db: Db, p: ProcId, room: RoomId, user: UserId)
    requires p !in db.procs
    ensures var db' := Complete(db, p, LeaveStarted(room, user));
      Ended(db, db', p) &&
      (TakesPart(db.rows, room, user) <==> db'.procs[p].outcome.GotRow?) &&
      match db'.procs[p].outcome
      case GotRow(i) => IsRowOf(db.rows, i, room, user) && db'.rows == LeftAt(db.rows, i)
      case outcome => outcome == NotFound && db'.rows == db.rows
  {
    var db0 := Goto(db, p, LeaveStarted(room, user));
    FindsRowOf(db.rows, room, user);
    match FindActive(db.rows, room, user)
    case None => FinishEnds(db0, p, 6, NotFound);
    case Some(i) =>
      assert Step(db0, Next(p)) == Goto(db, p, LeaveFound(i));
      SaveLeftEnds(Goto(db, p, LeaveFound(i)), p, i, 5);
  }

  /** Who may kick whom. */
  ghost predicate MayKick(db: Db, room: RoomId, acting: UserId, target: UserId) {
    room in db.rooms && db.rooms[room].hostId == acting && target != acting
  }

  lemma AllowedKickEnds(db: Db, p: ProcId, room: RoomId, target: UserId)
    requires p in db.procs && db.procs[p] == KickAllowed(room, target)
    ensures var db' := Accesses(db, p, 5);
      Ended(db, db', p) &&
      (TakesPart(db.rows, room, target) <==> db'.procs[p].outcome.GotRow?) &&
      match db'.procs[p].outcome
      case GotRow(i) => IsRowOf(db.rows, i, room, target) && db'.rows == LeftAt(db.rows, i)
      case outcome => outcome == NotFound && db'.rows == db.rows
  {
    FindsRowOf(db.rows, room, target);
    match FindActive(db.rows, room, target)
    case None => FinishEnds(db, p, 5, NotFound);
    case Some(i) =>
      assert Step(db, Next(p)) == Goto(db, p, KickFound(room, i));
      SaveLeftEnds(Goto(db, p, KickFound(room, i)), p, i, 4);
  }

  /** A kick ends the target's participation, and answers its row, if and only if the room's host asks
      for somebody else who takes part; otherwise no row changes. */
  lemma KickCompletes(db: Db, p: ProcId, room: RoomId, acting: UserId, target: UserId)
    requires p !in db.procs
    ensures var db' := Complete(db, p, KickStarted(room, acting, target));
      Ended(db, db', p) &&
      (MayKick(db, room, acting, target) && TakesPart(db.rows, room, target) <==> db'.procs[p].outcome.GotRow?) &&
      match db'.procs[p].outcome
      case GotRow(i) => IsRowOf(db.rows, i, room, target) && db'.rows == LeftAt(db.rows, i)
      case outcome =>
        db'.rows == db.rows &&
        outcome == if room in db.rooms && !MayKick(db, room, acting, target) then Forbidden else NotFound
  {
    var db0 := Goto(db, p, KickStarted(room, acting, target));
    if MayKick(db, room, acting, target) {
      assert Step(db0, Next(p)) == Goto(db, p, KickAllowed(room, target));
      AllowedKickEnds(Goto(db, p, KickAllowed(room, target)), p, room, target);
    } else {
      FinishEnds(db0, p, 6, if room in db.rooms then Forbidden else NotFound);
    }
  }

  /** `row` with the flags that were given. */
  function Flagged(row: Row, isMuted: Option<bool>, isCameraOn: Option<bool>): Row {
    row.(muted := if isMuted.Some? then isMuted.value else row.muted,
         camera := if isCameraOn.Some? then isCameraOn.value else row.camera)
  }

  lemma SaveFlagsEnds(db: Db, p: ProcId, i: RowId, isMuted: Option<bool>, isCameraOn: Option<bool>, n: nat)
    requires p in db.procs && i < |db.rows| && n >= 1
    requires db.procs[p] == FlagsFound(i, Changed(isMuted, db.rows[i].muted), Changed(isCameraOn, db.rows[i].camera))
    ensures var db' := Accesses(db, p, n);
      Ended(db, db', p) && db'.procs[p] == Done(GotRow(i)) &&
      db'.rows == db.rows[i := Flagged(db.rows[i], isMuted, isCameraOn)]
  {
    var db1 := Step(db, Next(p));
    assert db1 == Finish(db.(rows := db.rows[i := Flagged(db.rows[i], isMuted, isCameraOn)]), p, GotRow(i));
    DoneStays(db1, p, n - 1);
  }

  /** A presence update sets, on the user's active row, exactly the flags it gives. */
  lemma PresenceCompletes(db: Db, p: ProcId, room: RoomId, user: UserId, isMuted: Option<bool>, isCameraOn: Option<bool>)
    requires p !in db.procs
    ensures var db' := Complete(db, p, PresenceStarted(room, user, isMuted, isCameraOn));
      Ended(db, db', p) &&
      (TakesPart(db.rows, room, user) <==> db'.procs[p].outcome.GotRow?) &&
      match db'.procs[p].outcome
      case GotRow(i) =>
        IsRowOf(db.rows, i, room, user) && db'.rows == db.rows[i := Flagged(db.rows[i], isMuted, isCameraOn)]
      case outcome => outcome == NotFound && db'.rows == db.rows
  {
    var db0 := Goto(db, p, PresenceStarted(room, user, isMuted, isCameraOn));
    FindsRowOf(db.rows, room, user);
    match FindActive(db.rows, room, user)
    case None => FinishEnds(db0, p, 6, NotFound);
    case Some(i) => FoundPresenceEnds(db, p, room, user, isMuted, isCameraOn);
  }

  lemma FoundPresenceEnds(db: Db, p: ProcId, room: RoomId, user: UserId, isMuted: Option<bool>, isCameraOn: Option<bool>)
    requires FindActive(db.rows, room, user).Some?
    ensures var db' := Accesses(Goto(db, p, PresenceStarted(room, user, isMuted, isCameraOn)), p, 6);
      var i := FindActive(db.rows, room, user).value;
      Ended(db, db', p) && db'.procs[p] == Done(GotRow(i)) &&
      db'.rows == db.rows[i := Flagged(db.rows[i], isMuted, isCameraOn)]
  {
    var i := FindActive(db.rows, room, user).value;
    var found := FlagsFound(i, Changed(isMuted, db.rows[i].muted), Changed(isCameraOn, db.rows[i].camera));
    var db0 := Goto(db, p, PresenceStarted(room, user, isMuted, isCameraOn));
    assert Step(db0, Next(p)) == Goto(db, p, found);
    SaveFlagsEnds(Goto(db, p, found), p, i, isMuted, isCameraOn, 5);
  }

  /** Who may mute others: the host and moderators, while they take part. */
  ghost predicate MayMute(db: Db, room: RoomId, acting: UserId) {
    exists i: nat :: IsRowOf(db.rows, i, room, acting) && (db.rows[i].role == Host || db.rows[i].role == Moderator)
  }

  lemma AllowedMuteEnds(db: Db, p: ProcId, room: RoomId, target: UserId, mute: bool)
    requires p in db.procs && db.procs[p] == MuteAllowed(room, target, mute)
    ensures var db' := Accesses(db, p, 5);
      Ended(db, db', p) &&
      (TakesPart(db.rows, room, target) <==> db'.procs[p].outcome.GotRow?) &&
      match db'.procs[p].outcome
      case GotRow(i) => IsRowOf(db.rows, i, room, target) && db'.rows == db.rows[i := db.rows[i].(muted := mute)]
      case outcome => outcome == NotFound && db'.rows == db.rows
  {
    FindsRowOf(db.rows, room, target);
    match FindActive(db.rows, room, target)
    case None => FinishEnds(db, p, 5, NotFound);
    case Some(i) =>
      var found := FlagsFound(i, Changed(Some(mute), db.rows[i].muted), None);
      assert Step(db, Next(p)) == Goto(db, p, found);
      SaveFlagsEnds(Goto(db, p, found), p, i, Some(mute), None, 4);
  }

  /** A host's mute sets the target's flag to what was asked, if and only if whoever asks may and the
      target takes part; otherwise no row changes. */
  lemma MuteCompletes(db: Db, p: ProcId, room: RoomId, acting: UserId, target: UserId, mute: bool)
    requires p !in db.procs && OneActiveRow(db.rows)
    ensures var db' := Complete(db, p, MuteStarted(room, acting, target, mute));
      Ended(db, db', p) &&
      (MayMute(db, room, acting) && TakesPart(db.rows, room, target) <==> db'.procs[p].outcome.GotRow?) &&
      match db'.procs[p].outcome
      case GotRow(i) => IsRowOf(db.rows, i, room, target) && db'.rows == db.rows[i := db.rows[i].(muted := mute)]
      case outcome => db'.rows == db.rows && outcome == if MayMute(db, room, acting) then NotFound else Forbidden
  {
    var db0 := Goto(db, p, MuteStarted(room, acting, target, mute));
    MayMuteIsFound(db, room, acting);
    if MayMute(db, room, acting) {
      assert Step(db0, Next(p)) == Goto(db, p, MuteAllowed(room, target, mute));
      AllowedMuteEnds(Goto(db, p, MuteAllowed(room, target, mute)), p, room, target, mute);
    } else {
      FinishEnds(db0, p, 6, Forbidden);
    }
  }

  lemma MayMuteIsFound(db: Db, room: RoomId, acting: UserId)
    requires OneActiveRow(db.rows)
    ensures var found := FindActive(db.rows, room, acting);
      MayMute(db, room, acting) <==> found.Some? && !db.rows[found.value].role.Participant?
  {
    FindsRowOf(db.rows, room, acting);
    if FindActive(db.rows, room, acting).Some? {
      var k := FindActive(db.rows, room, acting).value;
      assert IsRowOf(db.rows, k, room, acting);
      assert forall i: nat :: IsRowOf(db.rows, i, room, acting) ==> i == k;
    }
  }

  // ---- creating ----

  lemma CreateStarts(db: Db, p: ProcId, room: RoomId, host: UserId, max: nat, needsPassword: bool)
    requires room !in db.rooms
    ensures Accesses(Goto(db, p, CreateStarted(room, host, max, needsPassword)), p, 6) ==
      Accesses(Goto(db, p, CreateRoomInserted(room, Room(host, max, true, needsPassword))), p, 5)
  {
    CreateFirstAccess(db, p, room, host, max, needsPassword);
  }

  lemma CreateFirstAccess(db: Db, p: ProcId, room: RoomId, host: UserId, max: nat, needsPassword: bool)
    requires room !in db.rooms
    ensures Step(Goto(db, p, CreateStarted(room, host, max, needsPassword)), Next(p)) ==
      Goto(db, p, CreateRoomInserted(room, Room(host, max, true, needsPassword)))
  {
  }

  lemma CreateEnds(db: Db, p: ProcId, room: RoomId, created: Room)
    requires p in db.procs && db.procs[p] == CreateRoomInserted(room, created) && room !in db.rooms
    ensures var db' := Accesses(db, p, 5);
      p in db'.procs && db'.procs[p] == Done(Created(room)) && db'.rooms == db.rooms[room := created] &&
      db'.rows == db.rows + [Row(room, created.hostId, Host, false, false, true)]
  {
    var x := Row(room, created.hostId, Host, false, false, true);
    var db1 := Step(db, Next(p));
    assert db1 == db.(procs := db.procs[p := CreateHostInserted(room, created, x)]);
    var db2 := Step(db1, Next(p));
    assert db2.procs[p] == Done(Created(room));
    DoneStays(db2, p, 3);
    assert Accesses(db, p, 5) == Accesses(db1, p, 4) == Accesses(db2, p, 3);
  }

  /** Alone, a creation commits the room, open and as asked for, and its host's row. */
  lemma CreateCompletes(db: Db, p: ProcId, room: RoomId, host: UserId, max: nat, needsPassword: bool)
    requires p !in db.procs && room !in db.rooms && 2 <= max <= 500
    ensures var db' := Complete(db, p, CreateStarted(room, host, max, needsPassword));
      p in db'.procs && db'.procs[p] == Done(Created(room)) &&
      db'.rooms == db.rooms[room := Room(host, max, true, needsPassword)] &&
      db'.rows == db.rows + [Row(room, host, Host, false, false, true)]
  {
    var created := Room(host, max, true, needsPassword);
    CreateStarts(db, p, room, host, max, needsPassword);
    CreateEnds(Goto(db, p, CreateRoomInserted(room, created)), p, room, created);
  }

  // ---- joining ----

  /** The room is there and takes this password. */
  predicate Open(db: Db, room: RoomId, passwordOk: bool) {
    room in db.rooms && db.rooms[room].isActive && (!db.rooms[room].needsPassword || passwordOk)
  }

  /** The row a join inserts. */
  function NewRow(db: Db, room: RoomId, user: UserId): Row
    requires room in db.rooms
  {
    Row(room, user, if db.rooms[room].hostId == user then Host else Participant, false, false, true)
  }

  /** What a join that runs alone answers and does. */
  ghost predicate JoinDoes(db: Db, db': Db, room: RoomId, user: UserId, passwordOk: bool, outcome: Outcome) {
    match outcome
    case NotFound => room !in db.rooms && db'.rows == db.rows
    case Forbidden => room in db.rooms && !db.rooms[room].isActive && db'.rows == db.rows
    case AuthFailed =>
      room in db.rooms && db.rooms[room].isActive && db.rooms[room].needsPassword && !passwordOk && db'.rows == db.rows
    case GotRow(i) =>
      Open(db, room, passwordOk) &&
      if TakesPart(db.rows, room, user) then IsRowOf(db.rows, i, room, user) && db'.rows == db.rows
      else
        ActiveCount(db.rows, room) < db.rooms[room].maxParticipants &&
        i == |db.rows| && db'.rows == db.rows + [NewRow(db, room, user)]
    case Full =>
      Open(db, room, passwordOk) && !TakesPart(db.rows, room, user) &&
      ActiveCount(db.rows, room) >= db.rooms[room].maxParticipants && db'.rows == db.rows
    case _ => false
  }

  lemma JoinRefusedAtOnce(db: Db, p: ProcId, room: RoomId, user: UserId, passwordOk: bool)
    requires p !in db.procs && !Open(db, room, passwordOk)
    ensures var db' := Complete(db, p, JoinStarted(room, user, passwordOk));
      Ended(db, db', p) && JoinDoes(db, db', room, user, passwordOk, db'.procs[p].outcome)
  {
    var db0 := Goto(db, p, JoinStarted(room, user, passwordOk));
    FinishEnds(db0, p, 6,
               if room !in db.rooms then NotFound else if !db.rooms[room].isActive then Forbidden else AuthFailed);
  }

  lemma JoinChecks(db: Db, p: ProcId, room: RoomId, user: UserId, passwordOk: bool)
    requires p !in db.procs && Open(db, room, passwordOk)
    ensures Complete(db, p, JoinStarted(room, user, passwordOk)) ==
      Accesses(Goto(db, p, JoinChecked(room, user, db.rooms[room])), p, 5)
  {
    var db0 := Goto(db, p, JoinStarted(room, user, passwordOk));
    assert Step(db0, Next(p)) == Goto(db, p, JoinChecked(room, user, db.rooms[room]));
  }

  lemma JoinLocks(db: Db, p: ProcId, room: RoomId, user: UserId)
    requires p in db.procs && room in db.rooms && db.procs[p] == JoinChecked(room, user, db.rooms[room])
    requires room !in db.locks && FindActive(db.rows, room, user).None?
    ensures Accesses(db, p, 5) ==
      Accesses(Goto(db.(locks := db.locks[room := p]), p, JoinLocked(room, user, db.rooms[room])), p, 3)
  {
    var seen := db.rooms[room];
    var db1 := Step(db, Next(p));
    assert db1 == Goto(db, p, JoinAbsent(room, user, seen));
    var db2 := Step(db1, Next(p));
    assert db2 == Goto(db.(locks := db.locks[room := p]), p, JoinLocked(room, user, seen));
    assert Accesses(db, p, 5) == Accesses(db1, p, 4) == Accesses(db2, p, 3);
  }

  lemma JoinFull(db: Db, p: ProcId, room: RoomId, user: UserId)
    requires p in db.procs && room in db.rooms && db.procs[p] == JoinLocked(room, user, db.rooms[room])
    requires ActiveCount(db.rows, room) >= db.rooms[room].maxParticipants
    ensures var db' := Accesses(db, p, 3); Ended(db, db', p) && db'.procs[p] == Done(Full) && db'.rows == db.rows
  {
    FinishEnds(db, p, 3, Full);
  }

  lemma JoinInserts(db: Db, p: ProcId, room: RoomId, user: UserId)
    requires p in db.procs && room in db.rooms && db.procs[p] == JoinLocked(room, user, db.rooms[room])
    requires FindActive(db.rows, room, user).None? && ActiveCount(db.rows, room) < db.rooms[room].maxParticipants
    ensures var db' := Accesses(db, p, 3);
      Ended(db, db', p) && db'.procs[p] == Done(GotRow(|db.rows|)) && db'.rows == db.rows + [NewRow(db, room, user)]
  {
    var seen, count := db.rooms[room], ActiveCount(db.rows, room);
    var db1 := Step(db, Next(p));
    assert db1 == Goto(db, p, JoinCounted(room, user, seen, count));
    var db2 := Step(db1, Next(p));
    assert db2 == Goto(db, p, JoinInserted(room, seen, NewRow(db, room, user)));
    var db3 := Step(db2, Next(p));
    assert Accesses(db1, p, 2) == Accesses(db2, p, 1) == Accesses(db3, p, 0);
  }

  lemma OpenJoinEnds(db: Db, p: ProcId, room: RoomId, user: UserId, passwordOk: bool)
    requires p in db.procs && Open(db, room, passwordOk) && db.procs[p] == JoinChecked(room, user, db.rooms[room])
    requires room !in db.locks
    ensures var db' := Accesses(db, p, 5);
      Ended(db, db', p) && JoinDoes(db, db', room, user, passwordOk, db'.procs[p].outcome)
  {
    FindsRowOf(db.rows, room, user);
    if FindActive(db.rows, room, user).Some? {
      FinishEnds(db, p, 5, GotRow(FindActive(db.rows, room, user).value));
    } else {
      var locked := Goto(db.(locks := db.locks[room := p]), p, JoinLocked(room, user, db.rooms[room]));
      JoinLocks(db, p, room, user);
      if ActiveCount(db.rows, room) >= db.rooms[room].maxParticipants {
        JoinFull(locked, p, room, user);
      } else {
        JoinInserts(locked, p, room, user);
      }
    }
  }

  /** Alone, whatever the password: a join gets in if and only if the room is there, active and takes the
      password, and the user takes part already or there is a free place; the answer says what was wrong,
      and only a new participation adds a row. */
  lemma JoinCompletes(db: Db, p: ProcId, room: RoomId, user: UserId, passwordOk: bool)
    requires p !in db.procs && room !in db.locks
    ensures var db' := Complete(db, p, JoinStarted(room, user, passwordOk));
      Ended(db, db', p) && JoinDoes(db, db', room, user, passwordOk, db'.procs[p].outcome)
    ensures Accepted(Complete(db, p, JoinStarted(room, user, passwordOk)), p) <==>
      room in db.rooms && db.rooms[room].isActive && (db.rooms[room].needsPassword ==> passwordOk) &&
      (TakesPart(db.rows, room, user) || ActiveCount(db.rows, room) < db.rooms[room].maxParticipants)
  {
    if Open(db, room, passwordOk) {
      JoinChecks(db, p, room, user, passwordOk);
      OpenJoinEnds(Goto(db, p, JoinChecked(room, user, db.rooms[room])), p, room, user, passwordOk);
    } else {
      JoinRefusedAtOnce(db, p, room, user, passwordOk);
    }
  }

  // ---- every request ends ----

  /** How many accesses a request needs when it runs alone. */
  function Needs(pc: Pc): nat {
    match pc
    case JoinStarted(_, _, _) => 6
    case JoinChecked(_, _, _) => 5
    case JoinAbsent(_, _, _) => 4
    case JoinLocked(_, _, _) => 3
    case JoinCounted(_, _, _, _) => 2
    case JoinInserted(_, _, _) => 1
    case LeaveStarted(_, _) => 2
    case LeaveFound(_) => 1
    case PresenceStarted(_, _, _, _) => 2
    case FlagsFound(_, _, _) => 1
    case MuteStarted(_, _, _, _) => 3
    case MuteAllowed(_, _, _) => 2
    case KickStarted(_, _, _) => 3
    case KickAllowed(_, _) => 2
    case KickFound(_, _) => 1
    case CreateStarted(_, _, _, _) => 3
    case CreateRoomInserted(_, _) => 2
    case CreateHostInserted(_, _, _) => 1
    case Done(_) => 0
  }

  /** Only `p` holds locks, and none once it is over. */
  ghost predicate OnlyLocker(db: Db, p: ProcId) {
    p in db.procs && (forall r :: r in db.locks ==> db.locks[r] == p) && (db.procs[p].Done? ==> db.locks == map[])
  }

  lemma JoinGetsOn(db: Db, p: ProcId)
    requires LocksOk(db) && OnlyLocker(db, p) && IsJoin(db.procs[p])
    ensures var db' := AdvanceJoin(db, p, db.procs[p]); OnlyLocker(db', p) && Needs(db'.procs[p]) < Needs(db.procs[p])
  {
  }

  lemma CreateGetsOn(db: Db, p: ProcId)
    requires OnlyLocker(db, p) && IsCreate(db.procs[p])
    ensures var db' := AdvanceCreate(db, p, db.procs[p]); OnlyLocker(db', p) && Needs(db'.procs[p]) < Needs(db.procs[p])
  {
  }

  lemma SaveGetsOn(db: Db, p: ProcId)
    requires OnlyLocker(db, p) && IsSave(db.procs[p])
    ensures var db' := AdvanceSave(db, p, db.procs[p]); OnlyLocker(db', p) && Needs(db'.procs[p]) < Needs(db.procs[p])
  {
  }

  lemma FindGetsOn(db: Db, p: ProcId)
    requires OnlyLocker(db, p) && IsFind(db.procs[p]) && !db.procs[p].Done?
    ensures var db' := AdvanceFind(db, p, db.procs[p]); OnlyLocker(db', p) && Needs(db'.procs[p]) < Needs(db.procs[p])
  {
  }

  lemma GetsOn(db: Db, p: ProcId)
    requires LocksOk(db) && OnlyLocker(db, p) && !db.procs[p].Done?
    ensures var db' := Step(db, Next(p));
      OnlyLocker(db', p) && Needs(db'.procs[p]) < Needs(db.procs[p]) && MovesOnly(db, db', p)
  {
    StepMovesOneRequest(db, Next(p));
    if IsJoin(db.procs[p]) {
      JoinGetsOn(db, p);
    } else if IsCreate(db.procs[p]) {
      CreateGetsOn(db, p);
    } else if IsSave(db.procs[p]) {
      SaveGetsOn(db, p);
    } else {
      FindGetsOn(db, p);
    }
  }

  lemma GetsOnKeepsInv(db: Db, p: ProcId)
    requires Inv(db) && OnlyLocker(db, p) && !db.procs[p].Done?
    ensures var db' := Step(db, Next(p));
      Inv(db') && OnlyLocker(db', p) && Needs(db'.procs[p]) < Needs(db.procs[p]) && MovesOnly(db, db', p)
  {
    GetsOn(db, p);
    StepKeepsInv(db, Next(p));
  }

  lemma {:induction false} AloneFinishes(db: Db, p: ProcId, n: nat)
    requires Inv(db) && OnlyLocker(db, p) && Needs(db.procs[p]) <= n
    ensures var db' := Accesses(db, p, n);
      Inv(db') && db'.locks == map[] && p in db'.procs && db'.procs == db.procs[p := db'.procs[p]]
    decreases n
  {
    if db.procs[p].Done? {
      DoneStays(db, p, n);
    } else {
      GetsOnKeepsInv(db, p);
      AloneFinishes(Step(db, Next(p)), p, n - 1);
    }
  }

  lemma {:induction false} NoRequestNothing(db: Db, p: ProcId, n: nat)
    requires p !in db.procs
    ensures Accesses(db, p, n) == db
  {
    if n > 0 {
      NoRequestNothing(db, p, n - 1);
    }
  }

  lemma CompleteIsQuiet(db: Db, p: ProcId, request: Pc)
    requires Inv(db) && db.locks == map[] && p !in db.procs
    ensures var db' := Complete(db, p, request);
      Inv(db') && db'.locks == map[] && db'.procs.Keys <= db.procs.Keys + {p}
  {
    var db0 := Step(db, Start(p, request));
    StepKeepsInv(db, Start(p, request));
    if IsRequest(request) {
      AloneFinishes(db0, p, 6);
    } else {
      NoRequestNothing(db, p, 6);
    }
  }
}
