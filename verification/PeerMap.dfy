/** `webrtcService.js`: which socket is in which room, its Redis mirror, and the live roster. */
module PeerMap {
  import opened Ids
  import opened JsMaps

  type Peers = map<RoomId, JsMap<SocketId, UserId>>

  function AddPeer(peers: Peers, room: RoomId, socket: SocketId, user: UserId): Peers {
    var m := if room in peers then peers[room] else EmptyMap();
    peers[room := Put(m, socket, user)]
  }

  function RemovePeer(peers: Peers, room: RoomId, socket: SocketId): Peers {
    if room !in peers then peers
    else
      var m := Delete(peers[room], socket);
      if |m.keys| == 0 then peers - {room} else peers[room := m]
  }

  predicate IsPeer(peers: Peers, room: RoomId, socket: SocketId) {
    room in peers && socket in peers[room].vals
  }

  /** One of the user's sockets in the room. */
  predicate PeerOf(peers: Peers, room: RoomId, s: SocketId, user: UserId) {
    IsPeer(peers, room, s) && peers[room].vals[s] == user
  }

  ghost predicate NoEmptyRoom(peers: Peers) {
    forall r :: r in peers ==> peers[r].vals != map[]
  }

  lemma AddPeerEffect(peers: Peers, room: RoomId, socket: SocketId, user: UserId)
    requires NoEmptyRoom(peers)
    ensures var p := AddPeer(peers, room, socket, user);
      NoEmptyRoom(p) &&
      (forall r, s :: IsPeer(p, r, s) <==> (r == room && s == socket) || IsPeer(peers, r, s)) &&
      (forall r, s :: IsPeer(p, r, s) ==> p[r].vals[s] == if r == room && s == socket then user else peers[r].vals[s])
  {
    assert socket in AddPeer(peers, room, socket, user)[room].vals;
  }

  lemma RemovePeerEffect(peers: Peers, room: RoomId, socket: SocketId)
    requires NoEmptyRoom(peers)
    ensures var p := RemovePeer(peers, room, socket);
      NoEmptyRoom(p) &&
      (forall r, s :: IsPeer(p, r, s) <==> !(r == room && s == socket) && IsPeer(peers, r, s)) &&
      (forall r, s :: IsPeer(p, r, s) ==> p[r].vals[s] == peers[r].vals[s])
  {
    if room in peers {
      EmptyKeys(Delete(peers[room], socket));
    }
  }

  // ---- the Redis mirror ----

  type Hashes = map<RoomId, map<SocketId, UserId>>

  datatype Command = HSet(room: RoomId, socket: SocketId, user: UserId) | HDel(room: RoomId, socket: SocketId)

  /** Redis creates a hash with its first field and drops it with its last. */
  function Execute(h: Hashes, c: Command): Hashes {
    match c
    case HSet(r, s, u) => h[r := (if r in h then h[r] else map[])[s := u]]
    case HDel(r, s) =>
      if r !in h then h
      else if |h[r] - {s}| == 0 then h - {r}
      else h[r := h[r] - {s}]
  }

  function Replay(h: Hashes, cs: seq<Command>): Hashes
    decreases |cs|
  {
    if cs == [] then h else Replay(Execute(h, cs[0]), cs[1..])
  }

  lemma {:induction false} ReplayOneMore(h: Hashes, cs: seq<Command>, c: Command)
    ensures Replay(h, cs + [c]) == Execute(Replay(h, cs), c)
    decreases |cs|
  {
    if cs == [] {
      assert Replay(Execute(h, c), []) == Execute(h, c);
    } else {
      ReplayOneMore(Execute(h, cs[0]), cs[1..], c);
      assert (cs + [c])[1..] == cs[1..] + [c];
    }
  }

  /** The in-memory table with the iteration order forgotten. */
  function Plain(peers: Peers): Hashes {
    map r | r in peers :: peers[r].vals
  }

  lemma AddIsHSet(peers: Peers, room: RoomId, socket: SocketId, user: UserId)
    ensures Plain(AddPeer(peers, room, socket, user)) == Execute(Plain(peers), HSet(room, socket, user))
  {
  }

  lemma RemoveIsHDel(peers: Peers, room: RoomId, socket: SocketId)
    ensures Plain(RemovePeer(peers, room, socket)) == Execute(Plain(peers), HDel(room, socket))
  {
    if room in peers {
      var m := Delete(peers[room], socket);
      EmptyKeys(m);
      assert |m.vals| == 0 <==> m.vals == map[];
    }
  }

  /** Commands are sent in order and reach Redis in order, at any later time. */
  datatype Mirror = Mirror(peers: Peers, pending: seq<Command>, redis: Hashes)

  datatype MirrorStep =
    | Add(room: RoomId, socket: SocketId, user: UserId)
    | Remove(room: RoomId, socket: SocketId)
    | RedisExecutes

  function MirrorNext(m: Mirror, step: MirrorStep): Mirror {
    match step
    case Add(r, s, u) => Mirror(AddPeer(m.peers, r, s, u), m.pending + [HSet(r, s, u)], m.redis)
    case Remove(r, s) => Mirror(RemovePeer(m.peers, r, s), m.pending + [HDel(r, s)], m.redis)
    case RedisExecutes =>
      if m.pending == [] then m
      else Mirror(m.peers, m.pending[1..], Execute(m.redis, m.pending[0]))
  }

  function MirrorRun(steps: seq<MirrorStep>): Mirror {
    if steps == [] then Mirror(map[], [], map[])
    else MirrorNext(MirrorRun(steps[..|steps| - 1]), steps[|steps| - 1])
  }

  /** Replaying what is still pending on the Redis hashes gives the in-memory table. */
  lemma {:induction false} MirrorCatchesUp(steps: seq<MirrorStep>)
    ensures var m := MirrorRun(steps); Replay(m.redis, m.pending) == Plain(m.peers) && NoEmptyRoom(m.peers)
  {
    if steps != [] {
      var m, step := MirrorRun(steps[..|steps| - 1]), steps[|steps| - 1];
      MirrorCatchesUp(steps[..|steps| - 1]);
      match step
      case Add(r, s, u) =>
        AddPeerEffect(m.peers, r, s, u);
        AddIsHSet(m.peers, r, s, u);
        ReplayOneMore(m.redis, m.pending, HSet(r, s, u));
      case Remove(r, s) =>
        RemovePeerEffect(m.peers, r, s);
        RemoveIsHDel(m.peers, r, s);
        ReplayOneMore(m.redis, m.pending, HDel(r, s));
      case RedisExecutes =>
    }
  }

  /** The steps without Redis's executions. */
  function Changes(steps: seq<MirrorStep>): seq<MirrorStep> {
    if steps == [] then []
    else
      var n := |steps| - 1;
      Changes(steps[..n]) + if steps[n].RedisExecutes? then [] else [steps[n]]
  }

  lemma RunOneMore(steps: seq<MirrorStep>, step: MirrorStep)
    ensures MirrorRun(steps + [step]) == MirrorNext(MirrorRun(steps), step)
  {
    assert (steps + [step])[..|steps|] == steps;
  }

  lemma PeersMoveAlone(m: Mirror, m': Mirror, step: MirrorStep)
    requires m.peers == m'.peers
    ensures MirrorNext(m, step).peers == MirrorNext(m', step).peers
  {
  }

  lemma ChangesOneMore(steps: seq<MirrorStep>, step: MirrorStep)
    ensures Changes(steps + [step]) == Changes(steps) + if step.RedisExecutes? then [] else [step]
  {
    assert (steps + [step])[..|steps|] == steps;
  }

  lemma NextChangesMatter(steps: seq<MirrorStep>, step: MirrorStep)
    requires MirrorRun(steps).peers == MirrorRun(Changes(steps)).peers
    ensures MirrorRun(steps + [step]).peers == MirrorRun(Changes(steps + [step])).peers
  {
    RunOneMore(steps, step);
    ChangesOneMore(steps, step);
    if step.RedisExecutes? {
      assert Changes(steps + [step]) == Changes(steps);
    } else {
      PeersMoveAlone(MirrorRun(steps), MirrorRun(Changes(steps)), step);
      RunOneMore(Changes(steps), step);
    }
  }

  lemma {:induction false} OnlyChangesMatter(steps: seq<MirrorStep>)
    ensures MirrorRun(steps).peers == MirrorRun(Changes(steps)).peers
  {
    if steps != [] {
      var before, step := steps[..|steps| - 1], steps[|steps| - 1];
      OnlyChangesMatter(before);
      NextChangesMatter(before, step);
      assert steps == before + [step];
    }
  }

  /** With nothing pending the mirror is exact, and neither side keeps an empty room. */
  lemma DrainedMirrorIsExact(steps: seq<MirrorStep>)
    requires MirrorRun(steps).pending == []
    ensures MirrorRun(steps).redis == Plain(MirrorRun(steps).peers)
    ensures forall r :: r in MirrorRun(steps).redis ==> MirrorRun(steps).redis[r] != map[]
  {
    MirrorCatchesUp(steps);
  }

  // ---- the live roster ----

  /** `user`'s last socket in the iteration order. */
  function SocketOf(keys: seq<SocketId>, vals: map<SocketId, UserId>, user: UserId): Option<SocketId> {
    if keys == [] then None
    else
      var last := keys[|keys| - 1];
      if last in vals && vals[last] == user then Some(last) else SocketOf(keys[..|keys| - 1], vals, user)
  }

  ghost predicate LastAmong(keys: seq<SocketId>, vals: map<SocketId, UserId>, user: UserId, s: SocketId) {
    exists i :: 0 <= i < |keys| && keys[i] == s &&
      forall j :: i < j < |keys| && keys[j] in vals ==> vals[keys[j]] != user
  }

  /** Its position: a later peer of the same user does not exist; `None` means no peer at all. */
  lemma {:induction false} SocketOfIsLast(keys: seq<SocketId>, vals: map<SocketId, UserId>, user: UserId)
    ensures match SocketOf(keys, vals, user)
      case None => forall s :: s in keys && s in vals ==> vals[s] != user
      case Some(s) => s in vals && vals[s] == user && LastAmong(keys, vals, user, s)
  {
    if keys != [] {
      var n := |keys| - 1;
      SocketOfIsLast(keys[..n], vals, user);
      assert keys == keys[..n] + [keys[n]];
      if keys[n] in vals && vals[keys[n]] == user {
        assert keys[n] == SocketOf(keys, vals, user).value;
      } else if SocketOf(keys, vals, user).Some? {
        var i :| 0 <= i < n && keys[..n][i] == SocketOf(keys, vals, user).value &&
          forall j :: i < j < n && keys[..n][j] in vals ==> vals[keys[..n][j]] != user;
        assert keys[i] == SocketOf(keys, vals, user).value;
        assert forall j :: i < j < n ==> keys[j] == keys[..n][j];
      }
    }
  }

  function SocketOfUser(peers: Peers, room: RoomId, user: UserId): Option<SocketId> {
    if room !in peers then None else SocketOf(peers[room].keys, peers[room].vals, user)
  }

  lemma SocketOfUserIsPeer(peers: Peers, room: RoomId, user: UserId)
    ensures SocketOfUser(peers, room, user).Some? ==>
      IsPeer(peers, room, SocketOfUser(peers, room, user).value) &&
      peers[room].vals[SocketOfUser(peers, room, user).value] == user
    ensures SocketOfUser(peers, room, user).None? <==>
      forall s :: IsPeer(peers, room, s) ==> peers[room].vals[s] != user
  {
    if room in peers {
      SocketOfIsLast(peers[room].keys, peers[room].vals, user);
    }
  }

  datatype Participant = Participant(rowId: nat, userId: UserId)
  datatype RosterEntry = RosterEntry(rowId: nat, userId: UserId, socketId: Option<SocketId>)

  /** What `room:update-participants` carries: a socket id is a current peer of that very user,
      it is missing exactly when the user has none, and only entries of one user can share it. */
  ghost predicate SoundPayload(peers: Peers, room: RoomId, rows: seq<Participant>, payload: seq<RosterEntry>) {
    |payload| == |rows| &&
    (forall i :: 0 <= i < |rows| ==>
       payload[i].rowId == rows[i].rowId && payload[i].userId == rows[i].userId &&
       (payload[i].socketId.Some? ==>
          IsPeer(peers, room, payload[i].socketId.value) &&
          peers[room].vals[payload[i].socketId.value] == rows[i].userId) &&
       (payload[i].socketId.None? ==> forall s :: IsPeer(peers, room, s) ==> peers[room].vals[s] != rows[i].userId)) &&
    (forall i, j :: 0 <= i < j < |rows| && payload[i].socketId.Some? && payload[i].socketId == payload[j].socketId ==>
       rows[i].userId == rows[j].userId)
  }

  class WebrtcService {
    var inMemoryRoomPeers: Peers
    var pending: seq<Command>  // sent to Redis, not executed yet
    var redis: Hashes

    ghost function View(): Mirror
      reads this
    {
      Mirror(inMemoryRoomPeers, pending, redis)
    }

    constructor ()
      ensures View() == MirrorRun([])
    {
      inMemoryRoomPeers, pending, redis := map[], [], map[];
    }

    method AddPeerToRoom(room: RoomId, socket: SocketId, user: UserId)
      modifies this
      ensures View() == MirrorNext(old(View()), Add(room, socket, user))
    {
      if room !in inMemoryRoomPeers {
        inMemoryRoomPeers := inMemoryRoomPeers[room := EmptyMap()];
      }
      inMemoryRoomPeers := inMemoryRoomPeers[room := Put(inMemoryRoomPeers[room], socket, user)];
      pending := pending + [HSet(room, socket, user)];
    }

    method RemovePeerFromRoom(room: RoomId, socket: SocketId)
      modifies this
      ensures View() == MirrorNext(old(View()), Remove(room, socket))
    {
      if room in inMemoryRoomPeers {
        inMemoryRoomPeers := inMemoryRoomPeers[room := Delete(inMemoryRoomPeers[room], socket)];
        if |inMemoryRoomPeers[room].keys| == 0 {
          inMemoryRoomPeers := inMemoryRoomPeers - {room};
        }
      }
      pending := pending + [HDel(room, socket)];
    }

    method RedisExecutesNext()
      modifies this
      ensures View() == MirrorNext(old(View()), RedisExecutes)
    {
      if pending != [] {
        redis := Execute(redis, pending[0]);
        pending := pending[1..];
      }
    }

    method GetSocketIdsByUserId(room: RoomId) returns (result: map<UserId, SocketId>)
      ensures forall u :: SocketOfUser(inMemoryRoomPeers, room, u) == if u in result then Some(result[u]) else None
    {
      result := map[];
      if room !in inMemoryRoomPeers {
        return;
      }
      var m := inMemoryRoomPeers[room];
      var i := 0;
      while i < |m.keys|
        invariant i <= |m.keys|
        invariant forall u :: SocketOf(m.keys[..i], m.vals, u) == if u in result then Some(result[u]) else None
      {
        assert m.keys[i] in m.vals;
        assert m.keys[..i + 1][..i] == m.keys[..i];
        result := result[m.vals[m.keys[i]] := m.keys[i]];
        i := i + 1;
      }
      assert m.keys[..i] == m.keys;
    }

    /** `broadcastParticipants`, up to the emit. */
    method RosterPayload(room: RoomId, rows: seq<Participant>) returns (payload: seq<RosterEntry>)
      ensures SoundPayload(inMemoryRoomPeers, room, rows, payload)
      ensures forall i :: 0 <= i < |rows| ==> payload[i].socketId == SocketOfUser(inMemoryRoomPeers, room, rows[i].userId)
    {
      var socketIdsByUserId := GetSocketIdsByUserId(room);
      forall u {
        SocketOfUserIsPeer(inMemoryRoomPeers, room, u);
      }
      payload := seq(|rows|, i requires 0 <= i < |rows| =>
        RosterEntry(rows[i].rowId, rows[i].userId,
                    if rows[i].userId in socketIdsByUserId then Some(socketIdsByUserId[rows[i].userId]) else None));
    }
  }
}
