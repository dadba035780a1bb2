/** `roomService.js` in its own form. A method named after a source function resumes one request of
    it: each case is the code from one `await` to the next, that is one database access. */
module RoomService {
  import opened Ids
  import opened JsMaps
  import opened RoomMembership
  import opened RoomProofs
  import opened RoomAnswers

  lemma RunOneMore(db: Db, trace: seq<Action>, a: Action)
    ensures Run(db, trace + [a]) == Step(Run(db, trace), a)
  {
    RunAppend(db, trace, [a]);
    assert [a][1..] == [];
  }

  lemma OthersLeaveMeAlone(db: Db, a: Action, me: ProcId)
    requires me in db.procs && a.proc != me
    ensures me in Step(db, a).procs && Step(db, a).procs[me] == db.procs[me]
  {
    StepMovesOneRequest(db, a);
  }

  class RoomDatabase {
    var rooms: map<RoomId, Room>
    var rows: seq<Row>
    var locks: map<RoomId, ProcId>
    var procs: map<ProcId, Pc>

    ghost function View(): Db
      reads this
    {
      Db(rooms, rows, locks, procs)
    }

    constructor ()
      ensures View() == EMPTY && Inv(View())
    {
      rooms, rows, locks, procs := map[], [], map[], map[];
    }

    /** Returning or throwing: the transaction, if any, is over. */
    method Finish(me: ProcId, outcome: Outcome)
      modifies this`locks, this`procs
      ensures View() == RoomMembership.Finish(old(View()), me, outcome)
    {
      locks := map r | r in locks && locks[r] != me :: locks[r];
      procs := procs[me := Done(outcome)];
    }

    method JoinRoom(me: ProcId)
      requires me in procs && IsJoin(procs[me])
      modifies this
      ensures View() == Step(old(View()), Next(me))
    {
      match procs[me]
      case JoinStarted(roomId, userId, passwordOk) =>
        if roomId !in rooms {
          Finish(me, NotFound);
          return;
        }
        var room := rooms[roomId];
        if !room.isActive {
          Finish(me, Forbidden);
          return;
        }
        if room.needsPassword {
          if !passwordOk {
            Finish(me, AuthFailed);
            return;
          }
        }
        procs := procs[me := JoinChecked(roomId, userId, room)];
      case JoinChecked(roomId, userId, room) =>
        var existing := FindActive(rows, roomId, userId);
        if existing.Some? {
          Finish(me, GotRow(existing.value));
          return;
        }
        procs := procs[me := JoinAbsent(roomId, userId, room)];
      case JoinAbsent(roomId, userId, room) =>
        if roomId !in locks {
          locks := locks[roomId := me];
          procs := procs[me := JoinLocked(roomId, userId, room)];
        }
      case JoinLocked(roomId, userId, room) =>
        var activeCount := ActiveCount(rows, roomId);
        if activeCount >= room.maxParticipants {
          Finish(me, Full);
          return;
        }
        procs := procs[me := JoinCounted(roomId, userId, room, activeCount)];
      case JoinCounted(roomId, userId, room, _) =>
        var role := if room.hostId == userId then Host else Participant;
        if FindActive(rows, roomId, userId).Some? {
          Finish(me, Failed);
          return;
        }
        procs := procs[me := JoinInserted(roomId, room, Row(roomId, userId, role, false, false, true))];
      case JoinInserted(_, _, participant) =>
        rows := rows + [participant];
        Finish(me, GotRow(|rows| - 1));
    }

    method CreateRoom(me: ProcId)
      requires me in procs && IsCreate(procs[me])
      modifies this
      ensures View() == Step(old(View()), Next(me))
    {
      match procs[me]
      case CreateStarted(roomId, hostId, maxParticipants, needsPassword) =>
        if roomId in rooms {
          Finish(me, Failed);
          return;
        }
        procs := procs[me := CreateRoomInserted(roomId, Room(hostId, maxParticipants, true, needsPassword))];
      case CreateRoomInserted(roomId, room) =>
        procs := procs[me := CreateHostInserted(roomId, room, Row(roomId, room.hostId, Host, false, false, true))];
      case CreateHostInserted(roomId, room, host) =>
        if roomId in rooms {
          Finish(me, Failed);
          return;
        }
        rooms := rooms[roomId := room];
        rows := rows + [host];
        Finish(me, Created(roomId));
    }

    /** Marks the row it found as left. */
    method SaveLeft(me: ProcId, i: RowId)
      requires i < |rows|
      modifies this
      ensures View() == RoomMembership.SaveLeft(old(View()), me, i)
    {
      rows := rows[i := rows[i].(left := true)];
      Finish(me, GotRow(i));
    }

    method LeaveRoom(me: ProcId)
      requires Inv(View()) && me in procs && (procs[me].LeaveStarted? || procs[me].LeaveFound?)
      modifies this
      ensures View() == Step(old(View()), Next(me))
    {
      match procs[me]
      case LeaveStarted(roomId, userId) =>
        var participant := FindActive(rows, roomId, userId);
        if participant.None? {
          Finish(me, NotFound);
          return;
        }
        procs := procs[me := LeaveFound(participant.value)];
      case LeaveFound(i) => SaveLeft(me, i);
    }

    /** Saves the flags: only what changed since the row was read is written. */
    method SaveFlags(me: ProcId)
      requires Inv(View()) && me in procs && procs[me].FlagsFound?
      modifies this
      ensures View() == Step(old(View()), Next(me))
    {
      var FlagsFound(i, isMuted, isCameraOn) := procs[me];
      if isMuted.Some? {
        rows := rows[i := rows[i].(muted := isMuted.value)];
      }
      if isCameraOn.Some? {
        rows := rows[i := rows[i].(camera := isCameraOn.value)];
      }
      Finish(me, GotRow(i));
    }

    method UpdateParticipantPresence(me: ProcId)
      requires Inv(View()) && me in procs && (procs[me].PresenceStarted? || procs[me].FlagsFound?)
      modifies this
      ensures View() == Step(old(View()), Next(me))
    {
      match procs[me]
      case PresenceStarted(roomId, userId, isMuted, isCameraOn) =>
        var participant := FindActive(rows, roomId, userId);
        if participant.None? {
          Finish(me, NotFound);
          return;
        }
        var i := participant.value;
        procs := procs[me := FlagsFound(i, Changed(isMuted, rows[i].muted), Changed(isCameraOn, rows[i].camera))];
      case FlagsFound(_, _, _) => SaveFlags(me);
    }

    method HostSetParticipantMuted(me: ProcId)
      requires Inv(View()) && me in procs
      requires procs[me].MuteStarted? || procs[me].MuteAllowed? || procs[me].FlagsFound?
      modifies this
      ensures View() == Step(old(View()), Next(me))
    {
      match procs[me]
      case MuteStarted(roomId, actingUserId, targetUserId, isMuted) =>
        var acting := FindActive(rows, roomId, actingUserId);
        if acting.None? || !(rows[acting.value].role.Host? || rows[acting.value].role.Moderator?) {
          Finish(me, Forbidden);
          return;
        }
        procs := procs[me := MuteAllowed(roomId, targetUserId, isMuted)];
      case MuteAllowed(roomId, targetUserId, isMuted) =>
        var target := FindActive(rows, roomId, targetUserId);
        if target.None? {
          Finish(me, NotFound);
          return;
        }
        procs := procs[me := FlagsFound(target.value, Changed(Some(isMuted), rows[target.value].muted), None)];
      case FlagsFound(_, _, _) => SaveFlags(me);
    }

    method HostKickParticipant(me: ProcId)
      requires Inv(View()) && me in procs && (procs[me].KickStarted? || procs[me].KickAllowed? || procs[me].KickFound?)
      modifies this
      ensures View() == Step(old(View()), Next(me))
    {
      match procs[me]
      case KickStarted(roomId, actingUserId, targetUserId) =>
        if roomId !in rooms {
          Finish(me, NotFound);
          return;
        }
        if rooms[roomId].hostId != actingUserId || targetUserId == actingUserId {
          Finish(me, Forbidden);
          return;
        }
        procs := procs[me := KickAllowed(roomId, targetUserId)];
      case KickAllowed(roomId, targetUserId) =>
        var target := FindActive(rows, roomId, targetUserId);
        if target.None? {
          Finish(me, NotFound);
          return;
        }
        procs := procs[me := KickFound(roomId, target.value)];
      case KickFound(_, i) => SaveLeft(me, i);
    }

    method Resume(me: ProcId)
      requires Inv(View()) && me in procs
      modifies this
      ensures View() == Step(old(View()), Next(me))
    {
      var pc := procs[me];
      if IsJoin(pc) {
        JoinRoom(me);
      } else if IsCreate(pc) {
        CreateRoom(me);
      } else if pc.LeaveStarted? || pc.LeaveFound? {
        LeaveRoom(me);
      } else if pc.PresenceStarted? || pc.FlagsFound? {
        UpdateParticipantPresence(me);
      } else if pc.MuteStarted? || pc.MuteAllowed? {
        HostSetParticipantMuted(me);
      } else if !pc.Done? {
        HostKickParticipant(me);
      }
    }

    /** Whatever the other requests do while `me` is suspended. */
    method Await(me: ProcId, others: seq<Action>)
      requires me in procs && forall i :: 0 <= i < |others| ==> others[i].proc != me
      modifies this
      ensures View() == Run(old(View()), others)
      ensures me in procs && procs[me] == old(procs[me])
    {
      var i := 0;
      while i < |others|
        invariant i <= |others| && View() == Run(old(View()), others[..i])
        invariant me in procs && procs[me] == old(procs[me])
      {
        OthersLeaveMeAlone(View(), others[i], me);
        RunOneMore(old(View()), others[..i], others[i]);
        assert others[..i + 1] == others[..i] + [others[i]];
        var db := Step(Db(rooms, rows, locks, procs), others[i]);
        rooms, rows, locks, procs := db.rooms, db.rows, db.locks, db.procs;
        i := i + 1;
      }
      assert others[..i] == others;
    }

    /** The others run, then `me` resumes. */
    method Turn(me: ProcId, request: Pc, others: seq<Action>, ghost start: Db, ghost trace: seq<Action>)
      requires Inv(start) && View() == Run(start, trace) && me in procs && Pending(View(), request, procs[me])
      requires forall i :: 0 <= i < |others| ==> others[i].proc != me
      modifies this
      ensures View() == Run(start, trace + others + [Next(me)])
      ensures Proceeds(Run(start, trace + others), View(), me, request)
    {
      PendingTurn(start, trace, others, request, procs[me]);
      Await(me, others);
      RunAppend(start, trace, others);
      InvInEveryRun(start, trace + others);
      Resume(me);
      RunOneMore(start, trace + others, Next(me));
      AccessAnswers(Run(start, trace + others), me, request);
    }

    /** One request from its arrival to its answer, or to the end of the schedule: before each of
        its accesses the others do as they please. The whole is a run of the machine in which the
        request has had one access for each entry of the schedule, unless it has its answer; and the
        answer is true of the tables at its last access. */
    method Serve(me: ProcId, request: Pc, schedule: seq<seq<Action>>) returns (ghost trace: seq<Action>)
      requires Inv(View()) && me !in procs && IsRequest(request)
      requires forall k, i :: 0 <= k < |schedule| && 0 <= i < |schedule[k]| ==> schedule[k][i].proc != me
      modifies this
      ensures View() == Run(old(View()), trace) && Inv(View())
      ensures me in procs && (procs[me].Done? || Count(trace, Next(me)) == |schedule|)
      ensures procs[me].Done? ==>
        trace != [] && Answered(Run(old(View()), trace[..|trace| - 1]), View(), request, procs[me].outcome)
    {
      ghost var start := View();
      trace := [Start(me, request)];
      RunOneMore(start, [], Start(me, request));
      assert [] + [Start(me, request)] == trace;
      procs := procs[me := request];
      var k := 0;
      while k < |schedule| && !procs[me].Done?
        invariant k <= |schedule| && me in procs && View() == Run(start, trace) && Count(trace, Next(me)) == k
        invariant if procs[me].Done?
          then trace != [] && Answered(Run(start, trace[..|trace| - 1]), View(), request, procs[me].outcome)
          else Pending(View(), request, procs[me])
      {
        ghost var before := trace + schedule[k];
        Turn(me, request, schedule[k], start, trace);
        CountTurn(trace, schedule[k], me);
        trace := before + [Next(me)];
        assert trace[..|trace| - 1] == before;
        k := k + 1;
      }
      InvInEveryRun(start, trace);
    }
  }

  lemma PendingTurn(start: Db, trace: seq<Action>, others: seq<Action>, request: Pc, pc: Pc)
    requires Pending(Run(start, trace), request, pc)
    ensures Pending(Run(start, trace + others), request, pc)
  {
    RunAppend(start, trace, others);
    RunOutlasts(Run(start, trace), others);
    PendingStays(Run(start, trace), Run(start, trace + others), request, pc);
  }

  lemma CountTurn(trace: seq<Action>, others: seq<Action>, me: ProcId)
    requires forall i :: 0 <= i < |others| ==> others[i].proc != me
    ensures Count(trace + others + [Next(me)], Next(me)) == Count(trace, Next(me)) + 1
  {
    CountConcat(trace + others, [Next(me)], Next(me));
    CountConcat(trace, others, Next(me));
    CountOthers(others, Next(me));
  }
}
