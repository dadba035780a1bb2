/** The redundant membership tables agree in every disciplined run. */
module Lifecycle {
  import opened Ids
  import opened JsMaps
  import opened SfuCalls
  import opened SfuModel
  import opened World
  import PeerMap
  import RateLimiter

  ghost predicate SeatsAgree(w: World) {
    forall r: RoomId, s: SocketId {:trigger Seat(r, s) in w.joined} :: Seat(r, s) in w.joined <==> RoomOf(w, s) == Some(r)
  }

  ghost predicate PeersAgree(w: World) {
    forall r: RoomId, s: SocketId {:trigger PeerMap.IsPeer(w.peers, r, s)} ::
      PeerMap.IsPeer(w.peers, r, s) <==> RoomOf(w, s) == Some(r)
  }

  /** `socket.data.roomId`, the socket.io rooms and the peer map say the same. */
  ghost predicate TablesAgree(w: World) {
    SeatsAgree(w) && PeersAgree(w)
  }

  ghost predicate Wellformed(w: World) {
    w.data.Keys <= w.users.Keys && w.inbox.Keys == w.data.Keys && w.views.Keys == w.data.Keys &&
    (forall r, s :: PeerMap.IsPeer(w.peers, r, s) ==> s in w.users && w.peers[r].vals[s] == w.users[s]) &&
    PeerMap.NoEmptyRoom(w.peers) &&
    (forall k :: k in w.rates ==> k.socket in w.data)
  }

  ghost predicate Agree(w: World) {
    Wellformed(w) && TablesAgree(w)
  }

  lemma JoinKeepsWellformed(w: World, s: SocketId, room: RoomId, dbOk: bool)
    requires Wellformed(w)
    ensures Wellformed(OnJoin(w, s, room, dbOk))
  {
    if s in w.data && s in w.users {
      PeerMap.AddPeerEffect(w.peers, room, s, w.users[s]);
    }
  }

  lemma DisciplinedJoinSeats(w: World, s: SocketId, room: RoomId, dbOk: bool)
    requires SeatsAgree(w) && Disciplined(w, Join(s, room, dbOk))
    ensures SeatsAgree(OnJoin(w, s, room, dbOk))
  {
  }

  lemma DisciplinedJoinPeers(w: World, s: SocketId, room: RoomId, dbOk: bool)
    requires Wellformed(w) && PeersAgree(w) && Disciplined(w, Join(s, room, dbOk))
    ensures PeersAgree(OnJoin(w, s, room, dbOk))
  {
    if s in w.data && dbOk {
      PeerMap.AddPeerEffect(w.peers, room, s, w.users[s]);
    }
  }

  lemma DisciplinedJoinAgrees(w: World, s: SocketId, room: RoomId, dbOk: bool)
    requires Agree(w) && Disciplined(w, Join(s, room, dbOk))
    ensures TablesAgree(OnJoin(w, s, room, dbOk))
  {
    DisciplinedJoinSeats(w, s, room, dbOk);
    DisciplinedJoinPeers(w, s, room, dbOk);
  }

  lemma UndisciplinedJoinDisagrees(w: World, s: SocketId, room: RoomId, dbOk: bool)
    requires Agree(w) && !Disciplined(w, Join(s, room, dbOk))
    ensures !TablesAgree(OnJoin(w, s, room, dbOk))
  {
    PeerMap.AddPeerEffect(w.peers, room, s, w.users[s]);
    var former := RoomOf(w, s).value;
    assert PeerMap.IsPeer(w.peers, former, s);
    assert PeerMap.IsPeer(OnJoin(w, s, room, dbOk).peers, former, s);
  }

  /** Exactly the disciplined joins keep the tables in agreement. */
  lemma JoinAgreesIff(w: World, s: SocketId, room: RoomId, dbOk: bool)
    requires Agree(w)
    ensures TablesAgree(OnJoin(w, s, room, dbOk)) <==> Disciplined(w, Join(s, room, dbOk))
  {
    if Disciplined(w, Join(s, room, dbOk)) {
      DisciplinedJoinAgrees(w, s, room, dbOk);
    } else {
      UndisciplinedJoinDisagrees(w, s, room, dbOk);
    }
  }

  lemma LeaveKeepsWellformed(w: World, s: SocketId, target: Option<RoomId>, dbOk: bool)
    requires Wellformed(w)
    ensures Wellformed(OnLeave(w, s, target, dbOk))
  {
    if Target(w, s, target).Some? {
      PeerMap.RemovePeerEffect(w.peers, Target(w, s, target).value, s);
    }
  }

  lemma DisciplinedLeaveAgrees(w: World, s: SocketId, target: Option<RoomId>, dbOk: bool)
    requires Agree(w) && Disciplined(w, Leave(s, target, dbOk))
    ensures TablesAgree(OnLeave(w, s, target, dbOk))
  {
    if Target(w, s, target).Some? {
      PeerMap.RemovePeerEffect(w.peers, Target(w, s, target).value, s);
    }
  }

  lemma UndisciplinedLeaveDisagrees(w: World, s: SocketId, target: Option<RoomId>, dbOk: bool)
    requires Agree(w) && !Disciplined(w, Leave(s, target, dbOk))
    ensures !TablesAgree(OnLeave(w, s, target, dbOk))
  {
    PeerMap.RemovePeerEffect(w.peers, target.value, s);
    var current := RoomOf(w, s).value;
    assert PeerMap.IsPeer(w.peers, current, s);
    assert PeerMap.IsPeer(OnLeave(w, s, target, dbOk).peers, current, s);
  }

  /** Exactly the disciplined leaves keep the tables in agreement. */
  lemma LeaveAgreesIff(w: World, s: SocketId, target: Option<RoomId>, dbOk: bool)
    requires Agree(w)
    ensures TablesAgree(OnLeave(w, s, target, dbOk)) <==> Disciplined(w, Leave(s, target, dbOk))
  {
    if Disciplined(w, Leave(s, target, dbOk)) {
      DisciplinedLeaveAgrees(w, s, target, dbOk);
    } else {
      UndisciplinedLeaveDisagrees(w, s, target, dbOk);
    }
  }

  lemma DisconnectKeepsAgree(w: World, s: SocketId)
    requires Agree(w)
    ensures Agree(OnDisconnect(w, s))
  {
    if s in w.data && w.data[s].Some? {
      PeerMap.RemovePeerEffect(w.peers, w.data[s].value, s);
    }
    assert forall k: RateLimiter.Key :: k.kind.Chat? || k.kind.Reaction?;
  }

  /** What a kick that finds its victim does. */
  lemma EvictionKeepsAgree(w: World, room: RoomId, victim: SocketId)
    requires Agree(w) && RoomOf(w, victim) == Some(room)
    ensures Agree(w.(peers := PeerMap.RemovePeer(w.peers, room, victim), joined := w.joined - {Seat(room, victim)},
                     data := w.data[victim := None], synced := w.synced - {victim}))
  {
    PeerMap.RemovePeerEffect(w.peers, room, victim);
  }

  lemma KickKeepsAgree(w: World, s: SocketId, target: Option<RoomId>, user: UserId, dbOk: bool)
    requires Agree(w)
    ensures Agree(OnKick(w, s, target, user, dbOk))
  {
    var room := Target(w, s, target);
    if room.Some? && s in w.data && dbOk {
      PeerMap.SocketOfUserIsPeer(w.peers, room.value, user);
      var victim := PeerMap.SocketOfUser(w.peers, room.value, user);
      if victim.Some? {
        EvictionKeepsAgree(w, room.value, victim.value);
      }
    }
  }

  lemma StepKeepsAgree(w: World, a: Action)
    requires Agree(w) && Disciplined(w, a)
    ensures Agree(Step(w, a))
  {
    match a
    case Join(s, room, dbOk) =>
      JoinKeepsWellformed(w, s, room, dbOk);
      JoinAgreesIff(w, s, room, dbOk);
    case Leave(s, target, dbOk) =>
      LeaveKeepsWellformed(w, s, target, dbOk);
      LeaveAgreesIff(w, s, target, dbOk);
    case Disconnect(s) => DisconnectKeepsAgree(w, s);
    case Kick(s, target, user, dbOk) => KickKeepsAgree(w, s, target, user, dbOk);
    case _ => OtherStepsKeepAgree(w, a);
  }

  ghost predicate SameTables(w: World, w': World) {
    w'.users == w.users && w'.data == w.data && w'.joined == w.joined && w'.peers == w.peers &&
    w'.inbox.Keys == w.inbox.Keys && w'.views.Keys == w.views.Keys &&
    forall k :: k in w'.rates ==> k in w.rates || k.socket in w.data
  }

  lemma AgreeFrame(w: World, w': World)
    requires Agree(w) && SameTables(w, w')
    ensures Agree(w')
  {
  }

  lemma CapabilitiesKeepTables(w: World, s: SocketId)
    ensures SameTables(w, OnGetCapabilities(w, s))
  {
  }

  lemma ProduceKeepsTables(w: World, s: SocketId, transport: Id, kind: Kind)
    ensures SameTables(w, OnProduce(w, s, transport, kind))
  {
  }

  lemma MessageStepKeepsTables(w: World, a: Action)
    requires a.Post? || a.Relay? || a.Receive?
    ensures SameTables(w, Step(w, a))
  {
  }

  lemma ConnectKeepsAgree(w: World, s: SocketId, user: UserId)
    requires Agree(w)
    ensures Agree(Step(w, Connect(s, user)))
  {
  }

  lemma OtherStepsKeepAgree(w: World, a: Action)
    requires Agree(w)
    requires !a.Join? && !a.Leave? && !a.Disconnect? && !a.Kick?
    ensures Agree(Step(w, a))
  {
    if a.Connect? {
      ConnectKeepsAgree(w, a.socket, a.user);
    } else if a.GetCapabilities? {
      CapabilitiesKeepTables(w, a.socket);
      AgreeFrame(w, OnGetCapabilities(w, a.socket));
    } else if a.StartProducing? {
      ProduceKeepsTables(w, a.socket, a.transport, a.media);
      AgreeFrame(w, OnProduce(w, a.socket, a.transport, a.media));
    } else if SfuAction(a) {
      SilentTouchesSfu(w, a);
      AgreeFrame(w, w.(sfu := Step(w, a).sfu));
    } else {
      MessageStepKeepsTables(w, a);
      AgreeFrame(w, Step(w, a));
    }
  }

  // ---- what a kick takes out ----

  lemma KickedPeers(w: World, s: SocketId, target: Option<RoomId>, user: UserId, room: RoomId)
    requires Agree(w) && s in w.data && Target(w, s, target) == Some(room)
    ensures var victim := PeerMap.SocketOfUser(w.peers, room, user);
      OnKick(w, s, target, user, true).peers ==
        if victim.None? then w.peers else PeerMap.RemovePeer(w.peers, room, victim.value)
  {
    PeerMap.SocketOfUserIsPeer(w.peers, room, user);
  }

  /** After a kick that the database allows, the user has no socket left in the room if and only if it
      had at most one. */
  lemma KickEmptiesIff(w: World, s: SocketId, target: Option<RoomId>, user: UserId, room: RoomId)
    requires Agree(w) && s in w.data && Target(w, s, target) == Some(room)
    ensures (forall x :: !PeerMap.PeerOf(OnKick(w, s, target, user, true).peers, room, x, user)) <==>
      forall x, y :: PeerMap.PeerOf(w.peers, room, x, user) && PeerMap.PeerOf(w.peers, room, y, user) ==> x == y
  {
    KickedPeers(w, s, target, user, room);
    RemovingTheFoundEmptiesIff(w.peers, room, user);
  }

  lemma RemovingTheFoundEmptiesIff(peers: PeerMap.Peers, room: RoomId, user: UserId)
    requires PeerMap.NoEmptyRoom(peers)
    ensures var found := PeerMap.SocketOfUser(peers, room, user);
      var peers' := if found.None? then peers else PeerMap.RemovePeer(peers, room, found.value);
      (forall x :: !PeerMap.PeerOf(peers', room, x, user)) <==>
      forall x, y :: PeerMap.PeerOf(peers, room, x, user) && PeerMap.PeerOf(peers, room, y, user) ==> x == y
  {
    PeerMap.SocketOfUserIsPeer(peers, room, user);
    var found := PeerMap.SocketOfUser(peers, room, user);
    if found.Some? {
      PeerMap.RemovePeerEffect(peers, room, found.value);
      var peers' := PeerMap.RemovePeer(peers, room, found.value);
      assert PeerMap.PeerOf(peers, room, found.value, user);
      assert forall x :: PeerMap.PeerOf(peers', room, x, user) <==> PeerMap.PeerOf(peers, room, x, user) && x != found.value;
    } else {
      assert forall x :: !PeerMap.PeerOf(peers, room, x, user);
    }
  }
}
