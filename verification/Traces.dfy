/** What is true now because of what happened before: relays, consumers and the limiter. */
module Traces {
  import opened Ids
  import opened JsMaps
  import opened SfuCalls
  import opened SfuEffects
  import opened SfuModel
  import opened SfuResults
  import opened World
  import opened Runs
  import LastEntered
  import PeerMap
  import RateLimiter

  // ---- who a socket is ----

  /** The user of the first connection under that socket id: ids are not used twice. */
  function FirstUser(actions: seq<Action>, n: nat, s: SocketId): Option<UserId>
    requires n <= |actions|
  {
    if n == 0 then None
    else if FirstUser(actions, n - 1, s).Some? then FirstUser(actions, n - 1, s)
    else if actions[n - 1].Connect? && actions[n - 1].socket == s then Some(actions[n - 1].user)
    else None
  }

  lemma UsersAfter(w: World, a: Action)
    ensures Step(w, a).users == if a.Connect? && a.socket !in w.users then w.users[a.socket := a.user] else w.users
  {
  }

  lemma NextUser(h: History, n: nat, s: SocketId)
    requires IsRun(h) && n < |h.actions| && RateLimiter.Lookup(h.states[n].users, s) == FirstUser(h.actions, n, s)
    ensures RateLimiter.Lookup(h.states[n + 1].users, s) == FirstUser(h.actions, n + 1, s)
  {
    UsersAfter(h.states[n], h.actions[n]);
    assert h.states[n + 1] == Step(h.states[n], h.actions[n]);
  }

  /** In every run a socket is known, for good, under the user it connected as. */
  lemma {:induction false} UserIsWhoConnected(h: History, n: nat, s: SocketId)
    requires IsRun(h) && n <= |h.actions|
    ensures RateLimiter.Lookup(h.states[n].users, s) == FirstUser(h.actions, n, s)
  {
    if n > 0 {
      UserIsWhoConnected(h, n - 1, s);
      NextUser(h, n - 1, s);
    }
  }

  // ---- who may be addressed ----

  predicate Joins(w: World, a: Action, room: RoomId, s: SocketId) {
    a == Join(s, room, true) && s in w.data && s in w.users
  }

  /** The step deletes `s` from `room`'s peer map. */
  predicate Removes(w: World, a: Action, room: RoomId, s: SocketId) {
    match a
    case Leave(x, target, dbOk) => x == s && dbOk && s in w.data && Target(w, s, target) == Some(room)
    case Disconnect(x) => x == s && RoomOf(w, s) == Some(room)
    case _ => Victim(w, a) == Some(Owner(room, s))
  }

  ghost predicate RecordedAs(w: World, room: RoomId, s: SocketId) {
    PeerMap.IsPeer(w.peers, room, s) ==> s in w.users && w.peers[room].vals[s] == w.users[s]
  }

  lemma PeersOnlyMoveByRoomSteps(w: World, a: Action)
    requires !a.Join? && !a.Leave? && !a.Disconnect? && !a.Kick?
    ensures Step(w, a).peers == w.peers
  {
  }

  lemma PeerAfterDisconnect(w: World, x: SocketId, room: RoomId, s: SocketId)
    requires PeerMap.NoEmptyRoom(w.peers)
    ensures PeerMap.NoEmptyRoom(OnDisconnect(w, x).peers)
    ensures PeerMap.IsPeer(OnDisconnect(w, x).peers, room, s) <==>
      PeerMap.IsPeer(w.peers, room, s) && !(x == s && RoomOf(w, s) == Some(room))
    ensures RecordedAs(w, room, s) ==> RecordedAs(OnDisconnect(w, x), room, s)
  {
    if RoomOf(w, x).Some? {
      PeerMap.RemovePeerEffect(w.peers, RoomOf(w, x).value, x);
    }
  }

  lemma LeavePeers(w: World, x: SocketId, target: Option<RoomId>, dbOk: bool)
    ensures var w' := OnLeave(w, x, target, dbOk);
      w'.users == w.users &&
      w'.peers ==
        if x in w.data && dbOk && Target(w, x, target).Some?
        then PeerMap.RemovePeer(w.peers, Target(w, x, target).value, x) else w.peers
  {
  }

  lemma PeerAfterLeave(w: World, x: SocketId, target: Option<RoomId>, dbOk: bool, room: RoomId, s: SocketId)
    requires PeerMap.NoEmptyRoom(w.peers)
    ensures PeerMap.NoEmptyRoom(OnLeave(w, x, target, dbOk).peers)
    ensures PeerMap.IsPeer(OnLeave(w, x, target, dbOk).peers, room, s) <==>
      PeerMap.IsPeer(w.peers, room, s) && !Removes(w, Leave(x, target, dbOk), room, s)
    ensures RecordedAs(w, room, s) ==> RecordedAs(OnLeave(w, x, target, dbOk), room, s)
  {
    LeavePeers(w, x, target, dbOk);
    if Target(w, x, target).Some? {
      PeerMap.RemovePeerEffect(w.peers, Target(w, x, target).value, x);
    }
  }

  lemma PeerAfterKick(w: World, a: Action, room: RoomId, s: SocketId)
    requires PeerMap.NoEmptyRoom(w.peers) && a.Kick?
    ensures PeerMap.NoEmptyRoom(Step(w, a).peers)
    ensures PeerMap.IsPeer(Step(w, a).peers, room, s) <==> PeerMap.IsPeer(w.peers, room, s) && !Removes(w, a, room, s)
    ensures RecordedAs(w, room, s) ==> RecordedAs(Step(w, a), room, s)
  {
    if Victim(w, a).Some? {
      PeerMap.RemovePeerEffect(w.peers, Victim(w, a).value.call, Victim(w, a).value.socket);
    }
  }

  lemma PeerAfterJoin(w: World, x: SocketId, r: RoomId, dbOk: bool, room: RoomId, s: SocketId)
    requires PeerMap.NoEmptyRoom(w.peers)
    ensures PeerMap.NoEmptyRoom(OnJoin(w, x, r, dbOk).peers)
    ensures PeerMap.IsPeer(OnJoin(w, x, r, dbOk).peers, room, s) <==>
      Joins(w, Join(x, r, dbOk), room, s) || PeerMap.IsPeer(w.peers, room, s)
    ensures RecordedAs(w, room, s) ==> RecordedAs(OnJoin(w, x, r, dbOk), room, s)
  {
    if x in w.users {
      PeerMap.AddPeerEffect(w.peers, r, x, w.users[x]);
    }
  }

  lemma PeerAfter(w: World, a: Action, room: RoomId, s: SocketId)
    requires PeerMap.NoEmptyRoom(w.peers)
    ensures PeerMap.NoEmptyRoom(Step(w, a).peers)
    ensures PeerMap.IsPeer(Step(w, a).peers, room, s) <==>
      Joins(w, a, room, s) || (PeerMap.IsPeer(w.peers, room, s) && !Removes(w, a, room, s))
    ensures RecordedAs(w, room, s) ==> RecordedAs(Step(w, a), room, s)
  {
    match a
    case Join(x, r, dbOk) => PeerAfterJoin(w, x, r, dbOk, room, s);
    case Leave(x, target, dbOk) => PeerAfterLeave(w, x, target, dbOk, room, s);
    case Disconnect(x) => PeerAfterDisconnect(w, x, room, s);
    case Kick(_, _, _, _) => PeerAfterKick(w, a, room, s);
    case _ =>
      PeersOnlyMoveByRoomSteps(w, a);
      if s in w.users {
        UsersGrow(w, a, s);
      }
  }

  /** Before the `n`-th action: the `i`-th put `s` into `room`'s peer map and none since took it out. */
  ghost predicate JoinedSince(h: History, n: nat, room: RoomId, s: SocketId, i: nat)
    requires IsRun(h) && n <= |h.actions|
  {
    i < n && Joins(h.states[i], h.actions[i], room, s) &&
    forall j :: i < j < n ==> !Removes(h.states[j], h.actions[j], room, s)
  }

  ghost predicate Member(h: History, n: nat, room: RoomId, s: SocketId)
    requires IsRun(h) && n <= |h.actions|
  {
    exists i: nat :: JoinedSince(h, n, room, s, i)
  }

  lemma MemberAfter(h: History, n: nat, room: RoomId, s: SocketId)
    requires IsRun(h) && n < |h.actions|
    ensures Member(h, n + 1, room, s) <==>
      Joins(h.states[n], h.actions[n], room, s) ||
      (Member(h, n, room, s) && !Removes(h.states[n], h.actions[n], room, s))
  {
    if Joins(h.states[n], h.actions[n], room, s) {
      assert JoinedSince(h, n + 1, room, s, n);
    } else if Member(h, n, room, s) && !Removes(h.states[n], h.actions[n], room, s) {
      var i: nat :| JoinedSince(h, n, room, s, i);
      assert JoinedSince(h, n + 1, room, s, i);
    } else if Member(h, n + 1, room, s) {
      var i: nat :| JoinedSince(h, n + 1, room, s, i);
      assert i < n;
      assert JoinedSince(h, n, room, s, i);
    }
  }

  /** The peer map holds exactly the sockets whose last join of the room was not followed by a
      removal, each under its own user; in any run, disciplined or not. */
  lemma {:induction false} PeersAreMembers(h: History, n: nat, room: RoomId, s: SocketId)
    requires IsRun(h) && n <= |h.actions|
    ensures PeerMap.NoEmptyRoom(h.states[n].peers)
    ensures PeerMap.IsPeer(h.states[n].peers, room, s) <==> Member(h, n, room, s)
    ensures RecordedAs(h.states[n], room, s)
  {
    if n > 0 {
      PeersAreMembers(h, n - 1, room, s);
      MemberAfter(h, n - 1, room, s);
      PeerAfter(h.states[n - 1], h.actions[n - 1], room, s);
    }
  }

  // ---- who is kicked ----

  /** What a step does to the peer map. */
  function Moves(w: World, a: Action): seq<PeerMap.MirrorStep> {
    match a
    case Join(s, room, dbOk) => if s in w.data && s in w.users && dbOk then [PeerMap.Add(room, s, w.users[s])] else []
    case Leave(s, target, dbOk) =>
      if s in w.data && dbOk && Target(w, s, target).Some? then [PeerMap.Remove(Target(w, s, target).value, s)] else []
    case Disconnect(s) => if RoomOf(w, s).Some? then [PeerMap.Remove(RoomOf(w, s).value, s)] else []
    case _ => if Victim(w, a).Some? then [PeerMap.Remove(Victim(w, a).value.call, Victim(w, a).value.socket)] else []
  }

  function Moved(h: History, n: nat): seq<PeerMap.MirrorStep>
    requires n <= |h.actions| && n <= |h.states|
  {
    if n == 0 then [] else Moved(h, n - 1) + Moves(h.states[n - 1], h.actions[n - 1])
  }

  lemma RoomStepMoves(w: World, a: Action)
    requires a.Join? || a.Leave? || a.Disconnect? || a.Kick?
    ensures |Moves(w, a)| <= 1
    ensures Step(w, a).peers == AfterMoves(w.peers, Moves(w, a))
  {
    match a
    case Leave(s, target, dbOk) => LeavePeers(w, s, target, dbOk);
    case Disconnect(s) => DisconnectPeers(w, s);
    case _ =>
  }

  lemma DisconnectPeers(w: World, x: SocketId)
    ensures OnDisconnect(w, x).peers ==
      if RoomOf(w, x).Some? then PeerMap.RemovePeer(w.peers, RoomOf(w, x).value, x) else w.peers
  {
  }

  function AfterMoves(peers: PeerMap.Peers, moves: seq<PeerMap.MirrorStep>): PeerMap.Peers {
    if moves == [] then peers else PeerMap.MirrorNext(PeerMap.Mirror(peers, [], map[]), moves[0]).peers
  }

  lemma StepMoves(w: World, a: Action, steps: seq<PeerMap.MirrorStep>)
    requires w.peers == PeerMap.MirrorRun(steps).peers
    ensures Step(w, a).peers == PeerMap.MirrorRun(steps + Moves(w, a)).peers
  {
    if a.Join? || a.Leave? || a.Disconnect? || a.Kick? {
      RoomStepMoves(w, a);
    } else {
      PeersOnlyMoveByRoomSteps(w, a);
    }
    if Moves(w, a) == [] {
      assert steps + [] == steps;
    } else {
      assert (steps + Moves(w, a))[..|steps|] == steps;
    }
  }

  lemma NextMoved(h: History, n: nat)
    requires IsRun(h) && 0 < n <= |h.actions| && h.states[n - 1].peers == PeerMap.MirrorRun(Moved(h, n - 1)).peers
    ensures h.states[n].peers == PeerMap.MirrorRun(Moved(h, n)).peers
  {
    StepMoves(h.states[n - 1], h.actions[n - 1], Moved(h, n - 1));
  }

  lemma {:induction false} PeersAreMoved(h: History, n: nat)
    requires IsRun(h) && n <= |h.actions|
    ensures h.states[n].peers == PeerMap.MirrorRun(Moved(h, n)).peers
  {
    if n == 0 {
      StartMoved(h);
    } else {
      PeersAreMoved(h, n - 1);
      NextMoved(h, n);
    }
  }

  lemma StartMoved(h: History)
    requires IsRun(h)
    ensures h.states[0].peers == PeerMap.MirrorRun(Moved(h, 0)).peers
  {
  }

  /** In every run, however Redis's executions fall between the steps, replaying the commands still
      pending on its hashes gives the peer map; with none pending the two are equal. */
  lemma MirrorFollowsRun(h: History, n: nat, steps: seq<PeerMap.MirrorStep>)
    requires IsRun(h) && n <= |h.actions| && PeerMap.Changes(steps) == Moved(h, n)
    ensures var m := PeerMap.MirrorRun(steps);
      PeerMap.Replay(m.redis, m.pending) == PeerMap.Plain(h.states[n].peers) &&
      (m.pending == [] ==> m.redis == PeerMap.Plain(h.states[n].peers))
  {
    PeersAreMoved(h, n);
    PeerMap.OnlyChangesMatter(steps);
    PeerMap.MirrorCatchesUp(steps);
  }

  /** In every run the socket that a kick evicts is the one of its user's sockets in that room that
      entered it last. */
  lemma VictimEnteredLast(h: History, n: nat, o: Owner)
    requires IsRun(h) && n < |h.actions| && Victim(h.states[n], h.actions[n]) == Some(o)
    ensures LastEntered.LastToEnter(Moved(h, n), o.call, o.socket, h.actions[n].user)
  {
    PeersAreMoved(h, n);
    LastEntered.LastEntrantWins(Moved(h, n), o.call, o.socket, h.actions[n].user);
  }

  // ---- relays ----

  /** The `i`-th action relayed `m` to `to`. Both ends were members of the room just then, and
      `fromUser` is whom the room's peer map recorded for the sender. */
  ghost predicate RelayedAt(h: History, m: Msg, to: SocketId, i: nat)
    requires IsRun(h) && m.Signal?
  {
    i < |h.actions| && h.actions[i] == Relay(m.fromSocket, m.room, to) &&
    Member(h, i, m.room, m.fromSocket) && Member(h, i, m.room, to) &&
    PeerMap.IsPeer(h.states[i].peers, m.room, m.fromSocket) &&
    m.fromUser == h.states[i].peers[m.room].vals[m.fromSocket]
  }

  ghost predicate NoNewSignal(w: World, w': World) {
    forall to, m: Msg :: m.Signal? && to in w'.inbox && m in w'.inbox[to] ==> to in w.inbox && m in w.inbox[to]
  }

  lemma CleanupSignalsNothing(w: World, s: SocketId)
    ensures NoNewSignal(w, CleanupSfuPeer(w, s))
  {
  }

  lemma RoomStepSignalsNothing(w: World, a: Action)
    requires !SfuAction(a) && !a.Relay?
    ensures NoNewSignal(w, Step(w, a))
  {
    match a
    case Leave(s, target, dbOk) =>
      if Target(w, s, target).Some? {
        CleanupSignalsNothing(w.(peers := PeerMap.RemovePeer(w.peers, Target(w, s, target).value, s)), s);
      }
    case Disconnect(s) => CleanupSignalsNothing(w, s);
    case _ =>
  }

  lemma HandlerSignalsNothing(w: World, a: Action)
    requires SfuAction(a)
    ensures NoNewSignal(w, Step(w, a))
  {
  }

  lemma NewSignal(w: World, a: Action, m: Msg, to: SocketId)
    requires m.Signal? && to in Step(w, a).inbox && m in Step(w, a).inbox[to]
    ensures (to in w.inbox && m in w.inbox[to]) ||
      (a == Relay(m.fromSocket, m.room, to) && CanRelayWithinRoom(w, m.room, m.fromSocket, to) &&
       m.fromSocket in w.users && m.fromUser == w.users[m.fromSocket])
  {
    if SfuAction(a) {
      HandlerSignalsNothing(w, a);
    } else if !a.Relay? {
      RoomStepSignalsNothing(w, a);
    }
  }

  /** Relay safety: every signal on its way to a client was relayed between two members. */
  lemma {:induction false} SignalsComeFromMembers(h: History, n: nat, m: Msg, to: SocketId)
    requires IsRun(h) && n <= |h.actions|
    requires m.Signal? && to in h.states[n].inbox && m in h.states[n].inbox[to]
    ensures exists i: nat :: i < n && RelayedAt(h, m, to, i)
  {
    var w := h.states[n - 1];
    NewSignal(w, h.actions[n - 1], m, to);
    if to in w.inbox && m in w.inbox[to] {
      SignalsComeFromMembers(h, n - 1, m, to);
    } else {
      PeersAreMembers(h, n - 1, m.room, m.fromSocket);
      PeersAreMembers(h, n - 1, m.room, to);
      assert RelayedAt(h, m, to, n - 1);
    }
  }

  /** And it does reach them: a relay asked for by a connected socket is delivered exactly if both
      ends are members; otherwise nobody gets anything. */
  lemma RelayReachesMembers(h: History, n: nat)
    requires IsRun(h) && n < |h.actions| && h.actions[n].Relay?
    requires h.actions[n].socket in h.states[n].data && h.actions[n].socket in h.states[n].users
    ensures var a, w := h.actions[n], h.states[n];
      var m := Signal(a.room, a.socket, w.users[a.socket]);
      h.states[n + 1].inbox ==
        if Member(h, n, a.room, a.socket) && Member(h, n, a.room, a.to) && a.to in w.inbox
        then w.inbox[a.to := w.inbox[a.to] + [m]] else w.inbox
  {
    var a := h.actions[n];
    PeersAreMembers(h, n, a.room, a.socket);
    PeersAreMembers(h, n, a.room, a.to);
    assert h.states[n + 1] == Step(h.states[n], a);
  }

  // ---- consumers ----

  /** A `resumeConsumer` of `c` by the peer that holds it. */
  predicate Resumes(w: World, a: Action, c: Id) {
    a.Resume? && a.consumer == c && RoomOf(w, a.socket).Some? && c in w.sfu.media.consumers &&
    w.sfu.media.consumers[c].owner == Owner(RoomOf(w, a.socket).value, a.socket)
  }

  ghost predicate ResumedBefore(h: History, n: nat, c: Id)
    requires IsRun(h) && n <= |h.actions|
  {
    exists i :: 0 <= i < n && Resumes(h.states[i], h.actions[i], c)
  }

  lemma PausedAfter(w: World, a: Action, c: Id)
    requires Inv(w.sfu)
    ensures c in Step(w, a).sfu.media.consumers ==>
      if c in w.sfu.media.consumers
      then Step(w, a).sfu.media.consumers[c].paused == (w.sfu.media.consumers[c].paused && !Resumes(w, a, c))
      else c == w.sfu.media.nextId && Step(w, a).sfu.media.consumers[c].paused && !Resumes(w, a, c)
    ensures w.sfu.media.nextId <= Step(w, a).sfu.media.nextId
    ensures Resumes(w, a, c) ==> c < w.sfu.media.nextId
  {
    StepCalls(w, a);
    ConsumerAfter(w.sfu, CallOf(w, a), c);
    ResumesIsUnpause(w, a, c);
  }

  lemma ResumesIsUnpause(w: World, a: Action, c: Id)
    requires Inv(w.sfu)
    ensures var call := CallOf(w, a);
      Resumes(w, a, c) <==> call.Unpause? && call.consumer == c && ResumeConsumer(w.sfu, call.o, c).Ok?
    ensures Resumes(w, a, c) ==> c < w.sfu.media.nextId
  {
    if a.Resume? && RoomOf(w, a.socket).Some? {
      ResumeExactly(w.sfu, Owner(RoomOf(w, a.socket).value, a.socket), a.consumer);
    }
  }

  lemma ResumedBeforeNext(h: History, n: nat, c: Id)
    requires IsRun(h) && n < |h.actions|
    ensures ResumedBefore(h, n + 1, c) <==> ResumedBefore(h, n, c) || Resumes(h.states[n], h.actions[n], c)
  {
  }

  ghost predicate PausedRightly(h: History, n: nat, c: Id)
    requires IsRun(h) && n <= |h.actions|
  {
    (c in h.states[n].sfu.media.consumers ==>
       (h.states[n].sfu.media.consumers[c].paused <==> !ResumedBefore(h, n, c))) &&
    (ResumedBefore(h, n, c) ==> c < h.states[n].sfu.media.nextId)
  }

  lemma PausedRightlyNext(h: History, n: nat, c: Id)
    requires IsRun(h) && n < |h.actions| && Inv(h.states[n].sfu) && PausedRightly(h, n, c)
    ensures PausedRightly(h, n + 1, c)
  {
    PausedAfter(h.states[n], h.actions[n], c);
    ResumedBeforeNext(h, n, c);
  }

  /** In every run a consumer is paused exactly while no `resumeConsumer` for it has succeeded. */
  lemma {:induction false} PausedUntilResumed(h: History, n: nat, c: Id)
    requires IsRun(h) && n <= |h.actions|
    ensures PausedRightly(h, n, c)
  {
    if n > 0 {
      SfuInEveryRun(h, n - 1);
      PausedUntilResumed(h, n - 1, c);
      PausedRightlyNext(h, n - 1, c);
    }
  }

  /** In every run each consumer is on its peer's earliest-created recv transport. */
  lemma OneReceivePath(h: History, n: nat, c: Id)
    requires IsRun(h) && n <= |h.actions| && c in h.states[n].sfu.media.consumers
    ensures var s := h.states[n].sfu;
      var x := s.media.consumers[c];
      x.owner in s.peers && EarliestRecv(s.media, s.peers[x.owner].transports, x.transport)
  {
    SfuInEveryRun(h, n);
  }

  /** The `i`-th action made a recv transport for the peer `o`, which has been there from then on. */
  ghost predicate RecvMadeAt(h: History, n: nat, o: Owner, i: nat)
    requires IsRun(h) && n <= |h.actions|
  {
    i < n && h.actions[i] == NewTransport(o.socket, Recv) && RoomOf(h.states[i], o.socket) == Some(o.call) &&
    forall j :: i <= j <= n ==> o in h.states[j].sfu.peers
  }

  ghost predicate RecvMade(h: History, n: nat, o: Owner)
    requires IsRun(h) && n <= |h.actions|
  {
    exists i: nat :: RecvMadeAt(h, n, o, i)
  }

  lemma RecvMadeNext(h: History, n: nat, o: Owner)
    requires IsRun(h) && n < |h.actions|
    ensures RecvMade(h, n + 1, o) <==>
      o in h.states[n].sfu.peers && o in h.states[n + 1].sfu.peers &&
      (RecvMade(h, n, o) ||
       (h.actions[n] == NewTransport(o.socket, Recv) && RoomOf(h.states[n], o.socket) == Some(o.call)))
  {
    var both := o in h.states[n].sfu.peers && o in h.states[n + 1].sfu.peers;
    if both && h.actions[n] == NewTransport(o.socket, Recv) && RoomOf(h.states[n], o.socket) == Some(o.call) {
      assert RecvMadeAt(h, n + 1, o, n);
    } else if both && RecvMade(h, n, o) {
      var i: nat :| RecvMadeAt(h, n, o, i);
      assert RecvMadeAt(h, n + 1, o, i);
    } else if RecvMade(h, n + 1, o) {
      var i: nat :| RecvMadeAt(h, n + 1, o, i);
      assert i < n ==> RecvMadeAt(h, n, o, i);
    }
  }

  lemma HasRecvNext(h: History, n: nat, o: Owner)
    requires IsRun(h) && n < |h.actions| && Inv(h.states[n].sfu)
    ensures HasRecv(h.states[n + 1].sfu, o) <==>
      o in h.states[n].sfu.peers && o in h.states[n + 1].sfu.peers &&
      (HasRecv(h.states[n].sfu, o) ||
       (h.actions[n] == NewTransport(o.socket, Recv) && RoomOf(h.states[n], o.socket) == Some(o.call)))
  {
    StepCalls(h.states[n], h.actions[n]);
    RecvAfter(h.states[n].sfu, CallOf(h.states[n], h.actions[n]), o);
    PeersAfter(h.states[n].sfu, CallOf(h.states[n], h.actions[n]), o);
    assert h.states[n + 1] == Step(h.states[n], h.actions[n]);
  }

  /** In every run a peer can receive if and only if it has made a recv transport since it came to be. */
  lemma {:induction false} RecvByHistory(h: History, n: nat, o: Owner)
    requires IsRun(h) && n <= |h.actions|
    ensures HasRecv(h.states[n].sfu, o) <==> RecvMade(h, n, o)
  {
    if n > 0 {
      RecvByHistory(h, n - 1, o);
      SfuInEveryRun(h, n - 1);
      HasRecvNext(h, n - 1, o);
      RecvMadeNext(h, n - 1, o);
    }
  }

  // ---- the limiter ----

  /** What one step asks of the limiter. */
  function Asks(w: World, a: Action): seq<RateLimiter.Event> {
    match a
    case Post(s, target, kind, valid, _, now) =>
      if Target(w, s, target).None? || !valid || RoomOf(w, s) != Target(w, s, target) then []
      else [RateLimiter.Request(RateLimiter.Key(s, kind), now)]
    case Disconnect(s) => if s in w.data then [RateLimiter.Clear(s)] else []
    case _ => []
  }

  function Asked(h: History, n: nat): seq<RateLimiter.Event>
    requires n <= |h.actions| && n <= |h.states|
  {
    if n == 0 then [] else Asked(h, n - 1) + Asks(h.states[n - 1], h.actions[n - 1])
  }

  lemma QuietForLimiter(w: World, a: Action)
    requires !a.Post? && !a.Disconnect?
    ensures Step(w, a).rates == w.rates
  {
  }

  lemma RatesAfter(w: World, a: Action)
    ensures Step(w, a).rates == if Asks(w, a) == [] then w.rates else RateLimiter.Apply(w.rates, Asks(w, a)[0])
    ensures |Asks(w, a)| <= 1
  {
    if !a.Post? && !a.Disconnect? {
      QuietForLimiter(w, a);
    }
  }

  lemma RatesNext(w: World, a: Action, events: seq<RateLimiter.Event>)
    requires w.rates == RateLimiter.StateAfter(events)
    ensures Step(w, a).rates == RateLimiter.StateAfter(events + Asks(w, a))
  {
    RatesAfter(w, a);
    if Asks(w, a) == [] {
      assert events + [] == events;
    } else {
      assert RateLimiter.Front(events + Asks(w, a)) == events;
    }
  }

  lemma {:induction false} RatesAreWhatWasAsked(h: History, n: nat)
    requires IsRun(h) && n <= |h.actions|
    ensures h.states[n].rates == RateLimiter.StateAfter(Asked(h, n))
  {
    if n > 0 {
      RatesAreWhatWasAsked(h, n - 1);
      RatesNext(h.states[n - 1], h.actions[n - 1], Asked(h, n - 1));
    }
  }

  /** In any run whose clock does not go back, what is stored for a socket's chat is computed from
      its own history since it was last cleared, and at most 15 messages pass in any five seconds. */
  lemma ChatStaysInBudget(h: History, n: nat, socket: SocketId, from: RateLimiter.Time)
    requires IsRun(h) && n <= |h.actions| && RateLimiter.ClockRuns(Asked(h, n))
    ensures var key := RateLimiter.Key(socket, RateLimiter.Chat);
      var history := RateLimiter.History(Asked(h, n), key);
      RateLimiter.Lookup(h.states[n].rates, key) == RateLimiter.WindowAfter(history, 5000) &&
      RateLimiter.AcceptedIn(history, 8, 5000, from) <= 15
  {
    RatesAreWhatWasAsked(h, n);
    RateLimiter.StateIsHistory(Asked(h, n), RateLimiter.Key(socket, RateLimiter.Chat));
    RateLimiter.PostsPerFiveSeconds(Asked(h, n), socket, from);
  }

  /** In the current window of these posts there is room for one more: none is open, its opener is at
      least a window back, or fewer than `max` came since. */
  ghost predicate Fits(times: seq<RateLimiter.Time>, max: nat, windowMs: nat, now: RateLimiter.Time) {
    times == [] ||
    var o := RateLimiter.LastOpener(times, windowMs).value;
    now - times[o] >= windowMs || |times| - o < max
  }

  lemma FitsIffNotLimited(times: seq<RateLimiter.Time>, max: nat, windowMs: nat, now: RateLimiter.Time)
    ensures Fits(times, max, windowMs, now) <==>
      !RateLimiter.Limited(RateLimiter.WindowAfter(times, windowMs), max, windowMs, now)
  {
    RateLimiter.WindowIsOpeners(times, windowMs);
  }

  /** The posts of a socket that the limiter has counted since it last cleared them. */
  function Counted(h: History, n: nat, s: SocketId, kind: RateLimiter.PostKind): seq<RateLimiter.Time>
    requires n <= |h.actions| && n <= |h.states|
  {
    RateLimiter.History(Asked(h, n), RateLimiter.Key(s, kind))
  }

  /** At every moment of every run: a chat message is relayed if and only if it is valid and not blank,
      meant for the socket's own room, and one of at most 8 in a window of 5 s. */
  lemma ChatRelayedIff(h: History, n: nat, s: SocketId, target: Option<RoomId>, valid: bool, blank: bool, now: RateLimiter.Time)
    requires IsRun(h) && n <= |h.actions|
    ensures RelaysPost(h.states[n], s, target, RateLimiter.Chat, valid, blank, now) <==>
      valid && !blank && RoomOf(h.states[n], s).Some? && (target.None? || target == RoomOf(h.states[n], s)) &&
      Fits(Counted(h, n, s, RateLimiter.Chat), 8, 5000, now)
  {
    RatesAreWhatWasAsked(h, n);
    RateLimiter.StateIsHistory(Asked(h, n), RateLimiter.Key(s, RateLimiter.Chat));
    FitsIffNotLimited(Counted(h, n, s, RateLimiter.Chat), 8, 5000, now);
  }

  /** The same for reactions: at most 15 in a window of 5 s. */
  lemma ReactionRelayedIff(h: History, n: nat, s: SocketId, target: Option<RoomId>, valid: bool, blank: bool,
                           now: RateLimiter.Time)
    requires IsRun(h) && n <= |h.actions|
    ensures RelaysPost(h.states[n], s, target, RateLimiter.Reaction, valid, blank, now) <==>
      valid && RoomOf(h.states[n], s).Some? && (target.None? || target == RoomOf(h.states[n], s)) &&
      Fits(Counted(h, n, s, RateLimiter.Reaction), 15, 5000, now)
  {
    RatesAreWhatWasAsked(h, n);
    RateLimiter.StateIsHistory(Asked(h, n), RateLimiter.Key(s, RateLimiter.Reaction));
    FitsIffNotLimited(Counted(h, n, s, RateLimiter.Reaction), 15, 5000, now);
  }

  /** What is counted: every valid post to the socket's own room, in order, and nothing before its last
      disconnect. */
  lemma CountedNext(h: History, n: nat, s: SocketId, kind: RateLimiter.PostKind)
    requires IsRun(h) && n < |h.actions|
    ensures Counted(h, n + 1, s, kind) ==
      match h.actions[n]
      case Post(x, target, k, valid, _, now) =>
        if x == s && k == kind && valid && RoomOf(h.states[n], s).Some? && (target.None? || target == RoomOf(h.states[n], s))
        then Counted(h, n, s, kind) + [now] else Counted(h, n, s, kind)
      case Disconnect(x) => if x == s && s in h.states[n].data then [] else Counted(h, n, s, kind)
      case _ => Counted(h, n, s, kind)
  {
    var asks := Asks(h.states[n], h.actions[n]);
    if asks == [] {
      assert Asked(h, n) + asks == Asked(h, n);
    } else {
      assert RateLimiter.Front(Asked(h, n) + asks) == Asked(h, n);
    }
  }
}
