/** What a request's answer says about the tables, whatever ran between its accesses. */
module RoomAnswers {
  import opened Ids
  import opened JsMaps
  import opened RoomMembership
  import opened RoomProofs
  import opened RoomRequests

  /** The row is the user's in that room, active or not. */
  predicate RowIsOf(db: Db, i: RowId, room: RoomId, user: UserId) {
    i < |db.rows| && db.rows[i].room == room && db.rows[i].user == user
  }

  predicate SameTables(db: Db, db': Db) {
    db'.rooms == db.rooms && db'.rows == db.rows
  }

  // ---- what an answer says: `db` before and `db'` after the access that gives it ----

  ghost predicate JoinAnswered(db: Db, db': Db, room: RoomId, user: UserId, passwordOk: bool, outcome: Outcome) {
    match outcome
    case NotFound => room !in db.rooms && SameTables(db, db')
    case Forbidden => room in db.rooms && !db.rooms[room].isActive && SameTables(db, db')
    case AuthFailed =>
      room in db.rooms && db.rooms[room].isActive && db.rooms[room].needsPassword && !passwordOk && SameTables(db, db')
    case Full =>
      Open(db, room, passwordOk) && ActiveCount(db.rows, room) == db.rooms[room].maxParticipants && SameTables(db, db')
    case Failed => Open(db, room, passwordOk) && TakesPart(db.rows, room, user) && SameTables(db, db')
    case GotRow(i) =>
      Open(db, room, passwordOk) && db'.rooms == db.rooms &&
      if TakesPart(db.rows, room, user) then IsRowOf(db.rows, i, room, user) && db'.rows == db.rows
      else
        ActiveCount(db.rows, room) < db.rooms[room].maxParticipants &&
        i == |db.rows| && db'.rows == db.rows + [NewRow(db, room, user)]
    case Created(_) => false
  }

  /** The room and its host's row appear together, or neither does. */
  ghost predicate CreateAnswered(db: Db, db': Db, room: RoomId, created: Room, outcome: Outcome) {
    match outcome
    case Created(r) =>
      r == room && room !in db.rooms && db'.rooms == db.rooms[room := created] &&
      db'.rows == db.rows + [Row(room, created.hostId, Host, false, false, true)] && ActiveCount(db'.rows, room) == 1
    case _ => outcome == Failed && room in db.rooms && SameTables(db, db')
  }

  ghost predicate LeaveAnswered(db: Db, db': Db, room: RoomId, user: UserId, outcome: Outcome) {
    match outcome
    case GotRow(i) => RowIsOf(db, i, room, user) && db'.rooms == db.rooms && db'.rows == db.rows[i := db.rows[i].(left := true)]
    case _ => outcome == NotFound && !TakesPart(db.rows, room, user) && SameTables(db, db')
  }

  ghost predicate KickAnswered(db: Db, db': Db, room: RoomId, acting: UserId, target: UserId, outcome: Outcome) {
    match outcome
    case GotRow(i) => MayKick(db, room, acting, target) && LeaveAnswered(db, db', room, target, outcome)
    case NotFound =>
      (room in db.rooms ==> MayKick(db, room, acting, target) && !TakesPart(db.rows, room, target)) && SameTables(db, db')
    case _ => outcome == Forbidden && room in db.rooms && !MayKick(db, room, acting, target) && SameTables(db, db')
  }

  /** A flag keeps its value or gets the one given. */
  predicate FlagFits(given: Option<bool>, before: bool, after: bool) {
    after == before || given == Some(after)
  }

  ghost predicate PresenceAnswered(db: Db, db': Db, room: RoomId, user: UserId, isMuted: Option<bool>, isCameraOn: Option<bool>,
                                   outcome: Outcome) {
    match outcome
    case GotRow(i) =>
      RowIsOf(db, i, room, user) && |db'.rows| == |db.rows| && db'.rooms == db.rooms &&
      FlagFits(isMuted, db.rows[i].muted, db'.rows[i].muted) && FlagFits(isCameraOn, db.rows[i].camera, db'.rows[i].camera) &&
      db'.rows == db.rows[i := db.rows[i].(muted := db'.rows[i].muted, camera := db'.rows[i].camera)]
    case _ => outcome == NotFound && !TakesPart(db.rows, room, user) && SameTables(db, db')
  }

  ghost predicate MuteAnswered(db: Db, db': Db, room: RoomId, acting: UserId, target: UserId, mute: bool, outcome: Outcome) {
    match outcome
    case Forbidden => !MayMute(db, room, acting) && SameTables(db, db')
    case _ =>
      room in db.rooms && db.rooms[room].hostId == acting && PresenceAnswered(db, db', room, target, Some(mute), None, outcome)
  }

  ghost predicate Answered(db: Db, db': Db, request: Pc, outcome: Outcome) {
    match request
    case JoinStarted(room, user, passwordOk) => JoinAnswered(db, db', room, user, passwordOk, outcome)
    case CreateStarted(room, host, max, needsPassword) =>
      CreateAnswered(db, db', room, Room(host, max, true, needsPassword), outcome)
    case LeaveStarted(room, user) => LeaveAnswered(db, db', room, user, outcome)
    case PresenceStarted(room, user, isMuted, isCameraOn) =>
      PresenceAnswered(db, db', room, user, isMuted, isCameraOn, outcome)
    case MuteStarted(room, acting, target, mute) => MuteAnswered(db, db', room, acting, target, mute, outcome)
    case KickStarted(room, acting, target) => KickAnswered(db, db', room, acting, target, outcome)
    case _ => false
  }

  // ---- where a request stands that has no answer yet ----

  ghost predicate JoinPending(db: Db, request: Pc, pc: Pc)
    requires request.JoinStarted?
  {
    var room, user := request.room, request.user;
    match pc
    case JoinStarted(_, _, _) => pc == request
    case JoinInserted(r, _, row) => r == room && Open(db, room, request.passwordOk) && row == NewRow(db, room, user)
    case _ => IsJoin(pc) && pc.room == room && pc.user == user && Open(db, room, request.passwordOk)
  }

  ghost predicate CreatePending(request: Pc, pc: Pc)
    requires request.CreateStarted?
  {
    var room, created := request.room, Room(request.host, request.max, true, request.needsPassword);
    pc == request || pc == CreateRoomInserted(room, created) ||
    pc == CreateHostInserted(room, created, Row(room, created.hostId, Host, false, false, true))
  }

  ghost predicate KickPending(db: Db, request: Pc, pc: Pc)
    requires request.KickStarted?
  {
    pc == request || (
      MayKick(db, request.room, request.acting, request.target) &&
      (pc == KickAllowed(request.room, request.target) ||
       (pc.KickFound? && pc.room == request.room && RowIsOf(db, pc.row, request.room, request.target))))
  }

  /** The row found is the user's, and only flags that were given will be written, with the values given. */
  ghost predicate FlagsPending(db: Db, pc: Pc, room: RoomId, user: UserId, isMuted: Option<bool>, isCameraOn: Option<bool>) {
    pc.FlagsFound? && RowIsOf(db, pc.row, room, user) &&
    (pc.isMuted == None || pc.isMuted == isMuted) && (pc.isCameraOn == None || pc.isCameraOn == isCameraOn)
  }

  ghost predicate MutePending(db: Db, request: Pc, pc: Pc)
    requires request.MuteStarted?
  {
    var room, target, mute := request.room, request.target, request.mute;
    pc == request || (
      room in db.rooms && db.rooms[room].hostId == request.acting &&
      (pc == MuteAllowed(room, target, mute) || FlagsPending(db, pc, room, target, Some(mute), None)))
  }

  ghost predicate Pending(db: Db, request: Pc, pc: Pc) {
    match request
    case JoinStarted(_, _, _) => JoinPending(db, request, pc)
    case CreateStarted(_, _, _, _) => CreatePending(request, pc)
    case LeaveStarted(room, user) => pc == request || (pc.LeaveFound? && RowIsOf(db, pc.row, room, user))
    case PresenceStarted(room, user, isMuted, isCameraOn) =>
      pc == request || FlagsPending(db, pc, room, user, isMuted, isCameraOn)
    case MuteStarted(_, _, _, _) => MutePending(db, request, pc)
    case KickStarted(_, _, _) => KickPending(db, request, pc)
    case _ => false
  }

  /** What is known of a request stays true whatever the others do. */
  lemma PendingStays(db: Db, db': Db, request: Pc, pc: Pc)
    requires Outlasts(db, db') && Pending(db, request, pc)
    ensures Pending(db', request, pc)
  {
  }

  // ---- each access ----

  ghost predicate Proceeds(db: Db, db': Db, me: ProcId, request: Pc) {
    me in db'.procs &&
    if db'.procs[me].Done? then Answered(db, db', request, db'.procs[me].outcome)
    else Pending(db', request, db'.procs[me]) && SameTables(db, db')
  }

  /** A join is refused for its password exactly if the room is open but needs another; a row it answers
      is the user's active one or the one it adds; `Full` means exactly full, and the unique index only
      rejects who is already in. */
  lemma JoinAnswers(db: Db, me: ProcId, request: Pc)
    requires Inv(db) && me in db.procs && request.JoinStarted? && JoinPending(db, request, db.procs[me])
    ensures Proceeds(db, Advance(db, me), me, request)
  {
    FindsRowOf(db.rows, request.room, request.user);
  }

  lemma CreateCommitAnswers(db: Db, me: ProcId, room: RoomId, created: Room)
    requires TablesOk(db) && me in db.procs && room !in db.rooms
    requires db.procs[me] == CreateHostInserted(room, created, Row(room, created.hostId, Host, false, false, true))
    ensures var db' := Advance(db, me);
      me in db'.procs && db'.procs[me] == Done(Created(room)) && CreateAnswered(db, db', room, created, Created(room))
  {
    CreateCommit(db, me);
    CountAppend(db.rows, db.procs[me].inserted, room);
    NobodyInNoRoom(db.rows, room);
  }

  lemma CreateGoesOn(db: Db, me: ProcId, request: Pc)
    requires me in db.procs && request.CreateStarted? && CreatePending(request, db.procs[me])
    requires request.room in db.rooms || !db.procs[me].CreateHostInserted?
    ensures Proceeds(db, Advance(db, me), me, request)
  {
  }

  /** A creation commits the room and its host's row together, or fails because the id is taken. */
  lemma CreateAnswers(db: Db, me: ProcId, request: Pc)
    requires Inv(db) && me in db.procs && request.CreateStarted? && CreatePending(request, db.procs[me])
    ensures Proceeds(db, Advance(db, me), me, request)
  {
    if request.room in db.rooms || !db.procs[me].CreateHostInserted? {
      CreateGoesOn(db, me, request);
    } else {
      CreateCommitAnswers(db, me, request.room, Room(request.host, request.max, true, request.needsPassword));
    }
  }

  /** A row that a leave answers is the user's in that room, and is left; none is answered only if the
      user does not take part. */
  lemma LeaveAnswers(db: Db, me: ProcId, request: Pc)
    requires me in db.procs && request.LeaveStarted? && Pending(db, request, db.procs[me])
    ensures Proceeds(db, Advance(db, me), me, request)
  {
    FindsRowOf(db.rows, request.room, request.user);
  }

  /** A row that a kick answers is the target's in that room, and is left; and it was the room's host who
      asked, meaning somebody else. */
  lemma KickAnswers(db: Db, me: ProcId, request: Pc)
    requires me in db.procs && request.KickStarted? && KickPending(db, request, db.procs[me])
    ensures Proceeds(db, Advance(db, me), me, request)
  {
    FindsRowOf(db.rows, request.room, request.target);
  }

  lemma SaveAnswers(db: Db, me: ProcId, room: RoomId, user: UserId, isMuted: Option<bool>, isCameraOn: Option<bool>)
    requires me in db.procs && FlagsPending(db, db.procs[me], room, user, isMuted, isCameraOn)
    ensures var db' := Advance(db, me);
      me in db'.procs && db'.procs[me].Done? &&
      PresenceAnswered(db, db', room, user, isMuted, isCameraOn, db'.procs[me].outcome) && db'.procs[me].outcome.GotRow?
  {
    var i := db.procs[me].row;
    assert Advance(db, me).procs[me] == Done(GotRow(i));
  }

  /** A row that a presence update answers is the user's in that room, and only flags that were given are
      written, with the values given. */
  lemma PresenceAnswers(db: Db, me: ProcId, request: Pc)
    requires me in db.procs && request.PresenceStarted? && Pending(db, request, db.procs[me])
    ensures Proceeds(db, Advance(db, me), me, request)
  {
    if db.procs[me].FlagsFound? {
      SaveAnswers(db, me, request.room, request.user, request.isMuted, request.isCameraOn);
    } else {
      FindsRowOf(db.rows, request.room, request.user);
    }
  }

  /** Only a room's host can mute: there are no moderators. */
  lemma MutersAreHosts(db: Db, room: RoomId, acting: UserId)
    requires TablesOk(db) && MayMute(db, room, acting)
    ensures room in db.rooms && db.rooms[room].hostId == acting
  {
    var i: nat :| IsRowOf(db.rows, i, room, acting) && (db.rows[i].role == Host || db.rows[i].role == Moderator);
    assert RoleFits(db.rows[i], db.rooms[room]);
  }

  lemma MuteCheckAnswers(db: Db, me: ProcId, request: Pc)
    requires Inv(db) && me in db.procs && request.MuteStarted? && db.procs[me] == request
    ensures Proceeds(db, Advance(db, me), me, request)
  {
    MayMuteIsFound(db, request.room, request.acting);
    if MayMute(db, request.room, request.acting) {
      MutersAreHosts(db, request.room, request.acting);
      assert Advance(db, me) == Goto(db, me, MuteAllowed(request.room, request.target, request.mute));
    } else {
      assert Advance(db, me) == Finish(db, me, Forbidden);
    }
  }

  /** A row that a mute answers is the target's in that room, with the flag as it was or as asked for;
      and it was the room's host who asked. */
  lemma MuteAnswers(db: Db, me: ProcId, request: Pc)
    requires Inv(db) && me in db.procs && request.MuteStarted? && MutePending(db, request, db.procs[me])
    ensures Proceeds(db, Advance(db, me), me, request)
  {
    if db.procs[me].FlagsFound? {
      SaveAnswers(db, me, request.room, request.target, Some(request.mute), None);
    } else if db.procs[me].MuteAllowed? {
      FindsRowOf(db.rows, request.room, request.target);
    } else {
      MuteCheckAnswers(db, me, request);
    }
  }

  lemma AccessAnswers(db: Db, me: ProcId, request: Pc)
    requires Inv(db) && me in db.procs && Pending(db, request, db.procs[me])
    ensures Proceeds(db, Step(db, Next(me)), me, request)
  {
    match request
    case JoinStarted(_, _, _) => JoinAnswers(db, me, request);
    case CreateStarted(_, _, _, _) => CreateAnswers(db, me, request);
    case LeaveStarted(_, _) => LeaveAnswers(db, me, request);
    case PresenceStarted(_, _, _, _) => PresenceAnswers(db, me, request);
    case MuteStarted(_, _, _, _) => MuteAnswers(db, me, request);
    case KickStarted(_, _, _) => KickAnswers(db, me, request);
    case _ =>
  }
}
