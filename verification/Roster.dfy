/** `getParticipants` and the payload of `room:update-participants`: where the database's active rows
    meet the live peer map. */
module Roster {
  import opened Ids
  import opened RoomMembership
  import opened RoomProofs
  import PeerMap

  /** The room's active rows, oldest first. */
  function GetParticipants(rows: seq<Row>, room: RoomId): seq<PeerMap.Participant> {
    if rows == [] then []
    else
      var n := |rows| - 1;
      GetParticipants(rows[..n], room) + if Active(rows[n], room) then [PeerMap.Participant(n, rows[n].user)] else []
  }

  lemma {:induction false} ParticipantsAreActiveRows(rows: seq<Row>, room: RoomId)
    ensures var ps := GetParticipants(rows, room);
      |ps| == ActiveCount(rows, room) &&
      (forall k :: 0 <= k < |ps| ==>
         ps[k].rowId < |rows| && Active(rows[ps[k].rowId], room) && rows[ps[k].rowId].user == ps[k].userId) &&
      (forall j, k :: 0 <= j < k < |ps| ==> ps[j].rowId < ps[k].rowId) &&
      (forall i :: 0 <= i < |rows| && Active(rows[i], room) ==> PeerMap.Participant(i, rows[i].user) in ps)
  {
    if rows != [] {
      var n := |rows| - 1;
      ParticipantsAreActiveRows(rows[..n], room);
      assert forall i :: 0 <= i < n ==> rows[..n][i] == rows[i];
      var last := if Active(rows[n], room) then [PeerMap.Participant(n, rows[n].user)] else [];
      assert GetParticipants(rows, room) == GetParticipants(rows[..n], room) + last;
    }
  }

  /** Whatever requests have run against the database and whatever is in the peer map: a sound payload
      for the room's active rows has one entry per active row, no more than the room's capacity, and
      no two entries with the same live socket. */
  lemma RosterHasNoSocketTwice(actions: seq<Action>, peers: PeerMap.Peers, room: RoomId, payload: seq<PeerMap.RosterEntry>)
    requires room in Run(EMPTY, actions).rooms
    requires PeerMap.SoundPayload(peers, room, GetParticipants(Run(EMPTY, actions).rows, room), payload)
    ensures forall i, j :: 0 <= i < j < |payload| && payload[i].socketId.Some? ==> payload[i].socketId != payload[j].socketId
    ensures forall i, j :: 0 <= i < j < |payload| ==> payload[i].userId != payload[j].userId
    ensures |payload| <= Run(EMPTY, actions).rooms[room].maxParticipants
  {
    var db := Run(EMPTY, actions);
    var ps := GetParticipants(db.rows, room);
    InvInEveryRun(EMPTY, actions);
    ParticipantsAreActiveRows(db.rows, room);
    forall i, j | 0 <= i < j < |ps| ensures ps[i].userId != ps[j].userId {
      assert Active(db.rows[ps[i].rowId], room) && Active(db.rows[ps[j].rowId], room);
    }
  }
}
