/** Room membership in the database: `roomService.js` as requests that interleave at every `await`.

    Each request is a process. One `Advance` is one database access, atomic in itself; between two
    of them any other request may run. A transaction's inserts are visible to nobody before its
    commit; the room row's lock is held until commit or rollback. */
module RoomMembership {
  import opened Ids
  import opened JsMaps

  type ProcId = int
  type RowId = nat

  datatype Role = Host | Moderator | Participant
  datatype Room = Room(hostId: UserId, maxParticipants: nat, isActive: bool, needsPassword: bool)
  datatype Row = Row(room: RoomId, user: UserId, role: Role, left: bool, muted: bool, camera: bool)

  datatype Outcome =
    | GotRow(row: RowId) | Created(room: RoomId)
    | NotFound | Forbidden | AuthFailed | Full
    | Failed  // a database error: rolled back

  /** Where a request stands, with the locals it still needs. */
  datatype Pc =
    | JoinStarted(room: RoomId, user: UserId, passwordOk: bool)
    | JoinChecked(room: RoomId, user: UserId, seen: Room)
    | JoinAbsent(room: RoomId, user: UserId, seen: Room)
    | JoinLocked(room: RoomId, user: UserId, seen: Room)
    | JoinCounted(room: RoomId, user: UserId, seen: Room, count: nat)
    | JoinInserted(room: RoomId, seen: Room, inserted: Row)
    | LeaveStarted(room: RoomId, user: UserId)
    | LeaveFound(row: RowId)
    | PresenceStarted(room: RoomId, user: UserId, isMuted: Option<bool>, isCameraOn: Option<bool>)
    | FlagsFound(row: RowId, isMuted: Option<bool>, isCameraOn: Option<bool>)
    | MuteStarted(room: RoomId, acting: UserId, target: UserId, mute: bool)
    | MuteAllowed(room: RoomId, target: UserId, mute: bool)
    | KickStarted(room: RoomId, acting: UserId, target: UserId)
    | KickAllowed(room: RoomId, target: UserId)
    | KickFound(room: RoomId, row: RowId)
    | CreateStarted(room: RoomId, host: UserId, max: nat, needsPassword: bool)
    | CreateRoomInserted(room: RoomId, created: Room)
    | CreateHostInserted(room: RoomId, created: Room, inserted: Row)
    | Done(outcome: Outcome)

  /** The committed tables, who holds which room's row lock, and the requests. A row is its index. */
  datatype Db = Db(rooms: map<RoomId, Room>, rows: seq<Row>, locks: map<RoomId, ProcId>, procs: map<ProcId, Pc>)

  const EMPTY := Db(map[], [], map[], map[])

  // ---- queries ----

  predicate Active(x: Row, room: RoomId) {
    x.room == room && !x.left
  }

  /** The user's active row in the room. */
  function FindActive(rows: seq<Row>, room: RoomId, user: UserId): (r: Option<RowId>)
    ensures r.Some? ==> r.value < |rows| && Active(rows[r.value], room) && rows[r.value].user == user
    ensures r.None? ==> forall i :: 0 <= i < |rows| && Active(rows[i], room) ==> rows[i].user != user
  {
    if rows == [] then None
    else
      var n := |rows| - 1;
      if Active(rows[n], room) && rows[n].user == user then Some(n) else FindActive(rows[..n], room, user)
  }

  /** How many active rows the room has. */
  function ActiveCount(rows: seq<Row>, room: RoomId): nat {
    if rows == [] then 0
    else ActiveCount(rows[..|rows| - 1], room) + if Active(rows[|rows| - 1], room) then 1 else 0
  }

  // ---- steps ----

  function Goto(db: Db, p: ProcId, pc: Pc): Db {
    db.(procs := db.procs[p := pc])
  }

  function Released(locks: map<RoomId, ProcId>, p: ProcId): map<RoomId, ProcId> {
    map r | r in locks && locks[r] != p :: locks[r]
  }

  /** Commit or rollback releases the locks. */
  function Finish(db: Db, p: ProcId, outcome: Outcome): Db {
    db.(locks := Released(db.locks, p), procs := db.procs[p := Done(outcome)])
  }

  predicate AccessGranted(room: Room, passwordOk: bool) {
    room.needsPassword ==> passwordOk
  }

  /** A field is written only if it was given and differs from what was read. */
  function Changed(given: Option<bool>, read: bool): Option<bool> {
    if given.Some? && given.value != read then given else None
  }

  function Written(write: Option<bool>, current: bool): bool {
    if write.Some? then write.value else current
  }

  /** The accesses of `joinRoom`. */
  function AdvanceJoin(db: Db, p: ProcId, pc: Pc): Db {
    match pc
    case JoinStarted(r, u, passwordOk) =>
      if r !in db.rooms then Finish(db, p, NotFound)
      else if !db.rooms[r].isActive then Finish(db, p, Forbidden)
      else if !AccessGranted(db.rooms[r], passwordOk) then Finish(db, p, AuthFailed)
      else Goto(db, p, JoinChecked(r, u, db.rooms[r]))
    case JoinChecked(r, u, seen) =>
      (match FindActive(db.rows, r, u)
       case Some(i) => Finish(db, p, GotRow(i))
       case None => Goto(db, p, JoinAbsent(r, u, seen)))
    case JoinAbsent(r, u, seen) =>
      if r in db.locks then db  // waits
      else Goto(db.(locks := db.locks[r := p]), p, JoinLocked(r, u, seen))
    case JoinLocked(r, u, seen) =>
      var count := ActiveCount(db.rows, r);
      if count >= seen.maxParticipants then Finish(db, p, Full)
      else Goto(db, p, JoinCounted(r, u, seen, count))
    case JoinCounted(r, u, seen, _) =>
      if FindActive(db.rows, r, u).Some? then Finish(db, p, Failed)  // uq_room_participants_active
      else Goto(db, p, JoinInserted(r, seen, Row(r, u, if seen.hostId == u then Host else Participant, false, false, true)))
    case JoinInserted(r, _, row) => Finish(db.(rows := db.rows + [row]), p, GotRow(|db.rows|))
    case _ => db
  }

  /** Those of `createRoom`. */
  function AdvanceCreate(db: Db, p: ProcId, pc: Pc): Db {
    match pc
    case CreateStarted(r, host, max, needsPassword) =>
      if r in db.rooms then Finish(db, p, Failed)
      else Goto(db, p, CreateRoomInserted(r, Room(host, max, true, needsPassword)))
    case CreateRoomInserted(r, created) =>
      Goto(db, p, CreateHostInserted(r, created, Row(r, created.hostId, Host, false, false, true)))
    case CreateHostInserted(r, created, row) =>
      if r in db.rooms then Finish(db, p, Failed)
      else Finish(db.(rooms := db.rooms[r := created], rows := db.rows + [row]), p, Created(r))
    case _ => db
  }

  /** The next access of these finds the row to change. */
  predicate Seeks(pc: Pc) {
    pc.LeaveStarted? || pc.PresenceStarted? || pc.MuteAllowed? || pc.KickAllowed?
  }

  function Sought(pc: Pc): UserId
    requires Seeks(pc)
  {
    if pc.LeaveStarted? || pc.PresenceStarted? then pc.user else pc.target
  }

  function WhenFound(pc: Pc, i: RowId, row: Row): Pc
    requires Seeks(pc)
  {
    match pc
    case LeaveStarted(_, _) => LeaveFound(i)
    case PresenceStarted(_, _, isMuted, isCameraOn) => FlagsFound(i, Changed(isMuted, row.muted), Changed(isCameraOn, row.camera))
    case MuteAllowed(_, _, mute) => FlagsFound(i, Changed(Some(mute), row.muted), None)
    case KickAllowed(r, _) => KickFound(r, i)
  }

  function AdvanceSeek(db: Db, p: ProcId, pc: Pc): Db
    requires Seeks(pc)
  {
    match FindActive(db.rows, pc.room, Sought(pc))
    case None => Finish(db, p, NotFound)
    case Some(i) => Goto(db, p, WhenFound(pc, i, db.rows[i]))
  }

  /** The host controls first check who asks. */
  function AdvanceCheck(db: Db, p: ProcId, pc: Pc): Db {
    match pc
    case MuteStarted(r, acting, target, mute) =>
      (match FindActive(db.rows, r, acting)
       case None => Finish(db, p, Forbidden)
       case Some(i) =>
         if db.rows[i].role.Participant? then Finish(db, p, Forbidden) else Goto(db, p, MuteAllowed(r, target, mute)))
    case KickStarted(r, acting, target) =>
      if r !in db.rooms then Finish(db, p, NotFound)
      else if db.rooms[r].hostId != acting then Finish(db, p, Forbidden)
      else if target == acting then Finish(db, p, Forbidden)
      else Goto(db, p, KickAllowed(r, target))
    case _ => db
  }

  function AdvanceFind(db: Db, p: ProcId, pc: Pc): Db {
    if Seeks(pc) then AdvanceSeek(db, p, pc) else AdvanceCheck(db, p, pc)
  }

  /** Their writes: each saves the fields it changed to the row it found. */
  function AdvanceSave(db: Db, p: ProcId, pc: Pc): Db {
    match pc
    case LeaveFound(i) => SaveLeft(db, p, i)
    case KickFound(_, i) => SaveLeft(db, p, i)
    case FlagsFound(i, isMuted, isCameraOn) =>
      if i >= |db.rows| then Finish(db, p, Failed)
      else
        var row := db.rows[i];
        Finish(db.(rows := db.rows[i := row.(muted := Written(isMuted, row.muted), camera := Written(isCameraOn, row.camera))]),
               p, GotRow(i))
    case _ => db
  }

  predicate IsJoin(pc: Pc) {
    pc.JoinStarted? || pc.JoinChecked? || pc.JoinAbsent? || pc.JoinLocked? || pc.JoinCounted? || pc.JoinInserted?
  }

  predicate IsCreate(pc: Pc) {
    pc.CreateStarted? || pc.CreateRoomInserted? || pc.CreateHostInserted?
  }

  predicate IsSave(pc: Pc) {
    pc.LeaveFound? || pc.FlagsFound? || pc.KickFound?
  }

  predicate IsFind(pc: Pc) {
    !IsJoin(pc) && !IsCreate(pc) && !IsSave(pc)
  }

  function Advance(db: Db, p: ProcId): Db
    requires p in db.procs
  {
    var pc := db.procs[p];
    if IsJoin(pc) then AdvanceJoin(db, p, pc)
    else if IsCreate(pc) then AdvanceCreate(db, p, pc)
    else if IsSave(pc) then AdvanceSave(db, p, pc)
    else AdvanceFind(db, p, pc)
  }

  function SaveLeft(db: Db, p: ProcId, i: RowId): Db {
    if i >= |db.rows| then Finish(db, p, Failed)
    else Finish(db.(rows := db.rows[i := db.rows[i].(left := true)]), p, GotRow(i))
  }

  datatype Action =
    | Start(proc: ProcId, request: Pc)
    | Next(proc: ProcId)
    | Abort(proc: ProcId)  // a lost connection or a crash: the transaction, if any, is rolled back

  /** The requests the controllers and handlers can make; `max` has passed validation. */
  predicate IsRequest(pc: Pc) {
    pc.JoinStarted? || pc.LeaveStarted? || pc.PresenceStarted? || pc.MuteStarted? || pc.KickStarted? ||
    (pc.CreateStarted? && 2 <= pc.max <= 500)
  }

  function Step(db: Db, a: Action): Db {
    match a
    case Start(p, request) => if p in db.procs || !IsRequest(request) then db else Goto(db, p, request)
    case Next(p) => if p in db.procs then Advance(db, p) else db
    case Abort(p) => if p in db.procs && !db.procs[p].Done? then Finish(db, p, Failed) else db
  }

  function Run(db: Db, actions: seq<Action>): Db
    decreases |actions|
  {
    if actions == [] then db else Run(Step(db, actions[0]), actions[1..])
  }

  // ---- what every interleaving keeps ----

  predicate HoldsLock(pc: Pc, room: RoomId) {
    (pc.JoinLocked? || pc.JoinCounted? || pc.JoinInserted?) && pc.room == room
  }

  ghost predicate LocksOk(db: Db) {
    (forall r :: r in db.locks ==> db.locks[r] in db.procs && HoldsLock(db.procs[db.locks[r]], r)) &&
    (forall p :: p in db.procs && (db.procs[p].JoinLocked? || db.procs[p].JoinCounted? || db.procs[p].JoinInserted?) ==>
       db.procs[p].room in db.locks && db.locks[db.procs[p].room] == p)
  }

  predicate RoleFits(x: Row, room: Room) {
    x.role == if x.user == room.hostId then Host else Participant
  }

  ghost predicate Ever(rows: seq<Row>, room: RoomId, user: UserId) {
    exists i :: 0 <= i < |rows| && rows[i].room == room && rows[i].user == user
  }

  ghost predicate TablesOk(db: Db) {
    (forall r :: r in db.rooms ==> Ever(db.rows, r, db.rooms[r].hostId)) &&
    (forall i :: 0 <= i < |db.rows| ==> db.rows[i].room in db.rooms && RoleFits(db.rows[i], db.rooms[db.rows[i].room]))
  }

  ghost predicate OneActiveRow(rows: seq<Row>) {
    forall i, j :: 0 <= i < j < |rows| && rows[i].room == rows[j].room && rows[i].user == rows[j].user ==>
      rows[i].left || rows[j].left
  }

  /** What a request knows between two of its accesses. While it holds the room's lock, the count
      it read stays an upper bound: others can only lower the number of active rows. */
  ghost predicate Knows(db: Db, pc: Pc) {
    match pc
    case JoinChecked(r, _, seen) => r in db.rooms && db.rooms[r] == seen
    case JoinAbsent(r, _, seen) => r in db.rooms && db.rooms[r] == seen
    case JoinLocked(r, _, seen) => r in db.rooms && db.rooms[r] == seen
    case JoinCounted(r, _, seen, count) =>
      r in db.rooms && db.rooms[r] == seen && ActiveCount(db.rows, r) <= count < seen.maxParticipants
    case JoinInserted(r, seen, row) =>
      r in db.rooms && db.rooms[r] == seen && ActiveCount(db.rows, r) < seen.maxParticipants &&
      row.room == r && !row.left && RoleFits(row, seen) && FindActive(db.rows, r, row.user).None?
    case LeaveFound(i) => i < |db.rows|
    case FlagsFound(i, _, _) => i < |db.rows|
    case KickAllowed(r, target) => r in db.rooms && db.rooms[r].hostId != target
    case KickFound(r, i) => i < |db.rows| && db.rows[i].room == r && db.rows[i].role != Host
    case CreateStarted(_, _, max, _) => 2 <= max <= 500
    case CreateRoomInserted(_, created) => 2 <= created.maxParticipants <= 500
    case CreateHostInserted(r, created, row) =>
      2 <= created.maxParticipants <= 500 && row.room == r && row.user == created.hostId && row.role == Host && !row.left
    case _ => true
  }

  ghost predicate AllKnow(db: Db) {
    forall p :: p in db.procs ==> Knows(db, db.procs[p])
  }

  ghost predicate WithinCapacity(db: Db) {
    forall r :: r in db.rooms ==> ActiveCount(db.rows, r) <= db.rooms[r].maxParticipants
  }

  ghost predicate Inv(db: Db) {
    LocksOk(db) && TablesOk(db) && OneActiveRow(db.rows) && AllKnow(db) && WithinCapacity(db)
  }
}
