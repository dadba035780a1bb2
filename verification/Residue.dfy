/** What is left of a call when everybody has gone, and runs in which the tables part. */
module Residue {
  import opened Ids
  import opened JsMaps
  import opened SfuModel
  import opened World
  import opened Lifecycle
  import opened Runs
  import PeerMap

  // ---- the residue of a run ----

  /** The `i`-th action kicked `o`'s socket while `o` had an SFU peer, and it has not joined that
      room again since. */
  ghost predicate EvictedAt(h: History, n: nat, o: Owner, i: nat)
    requires IsRun(h) && n <= |h.actions|
  {
    i < n && o in h.states[i].sfu.peers && Victim(h.states[i], h.actions[i]) == Some(o) &&
    forall j :: i < j < n ==> !Rejoins(h.states[j], h.actions[j], o)
  }

  ghost predicate Evicted(h: History, n: nat, o: Owner)
    requires IsRun(h) && n <= |h.actions|
  {
    exists i: nat :: EvictedAt(h, n, o, i)
  }

  lemma EvictedNext(h: History, n: nat, o: Owner)
    requires IsRun(h) && n < |h.actions|
    ensures Evicted(h, n + 1, o) <==>
      (o in h.states[n].sfu.peers && Victim(h.states[n], h.actions[n]) == Some(o)) ||
      (Evicted(h, n, o) && !Rejoins(h.states[n], h.actions[n], o))
  {
    if o in h.states[n].sfu.peers && Victim(h.states[n], h.actions[n]) == Some(o) {
      assert EvictedAt(h, n + 1, o, n);
    } else if Evicted(h, n, o) && !Rejoins(h.states[n], h.actions[n], o) {
      var i: nat :| EvictedAt(h, n, o, i);
      assert EvictedAt(h, n + 1, o, i);
    } else if Evicted(h, n + 1, o) {
      var i: nat :| EvictedAt(h, n + 1, o, i);
      assert i < n;
      assert EvictedAt(h, n, o, i);
    }
  }

  lemma StrandedNext(h: History, n: nat, o: Owner)
    requires DisciplinedRun(h) && n < |h.actions|
    ensures Stranded(h.states[n + 1], o) <==>
      (o in h.states[n].sfu.peers && Victim(h.states[n], h.actions[n]) == Some(o)) ||
      (Stranded(h.states[n], o) && !Rejoins(h.states[n], h.actions[n], o))
  {
    DisciplinedRunsAgree(h, n);
    StrandedExactly(h.states[n], h.actions[n], o);
  }

  /** At every moment of a disciplined run the SFU peers without their socket's room are exactly those
      evicted by a kick and not back since. */
  lemma {:induction false} StrandedAreEvicted(h: History, n: nat, o: Owner)
    requires DisciplinedRun(h) && n <= |h.actions|
    ensures Stranded(h.states[n], o) <==> Evicted(h, n, o)
  {
    if n > 0 {
      StrandedAreEvicted(h, n - 1, o);
      StrandedNext(h, n - 1, o);
      EvictedNext(h, n - 1, o);
    }
  }

  /** In runs without kicks, then, there are none. */
  lemma NobodyStrandedWithoutKicks(h: History, n: nat, o: Owner)
    requires DisciplinedRun(h) && n <= |h.actions| && forall i :: 0 <= i < n ==> !h.actions[i].Kick?
    ensures !Stranded(h.states[n], o)
  {
    StrandedAreEvicted(h, n, o);
  }

  lemma CallsArePeersCalls(s: Sfu, call: CallId)
    requires PeersOk(s) && NoEmptyCall(s)
    ensures call in s.calls <==> exists o: Owner :: o.call == call && o in s.peers
  {
    if call in s.calls {
      assert Owner(call, s.calls[call].sockets[0]) in s.peers;
    }
  }

  lemma NoCallNothingOpen(s: Sfu)
    requires Inv(s) && s.calls == map[]
    ensures s.peers == map[] && s.media.routers == map[] && s.media.transports == map[] &&
      s.media.producers == map[] && s.media.consumers == map[]
  {
    assert forall o :: o !in s.peers;
    assert forall x :: x !in s.media.transports && x !in s.media.producers && x !in s.media.consumers;
    assert forall x :: x !in s.media.routers;
  }

  /** With no socket connected the socket layer's own tables are empty, whatever was kicked. */
  lemma EmptyHouse(w: World)
    requires Agree(w) && w.data == map[]
    ensures w.peers == map[] && w.rates == map[] && w.joined == {}
  {
    forall r | r in w.peers ensures false {
      EmptyKeys(w.peers[r]);
      assert PeerMap.IsPeer(w.peers, r, w.peers[r].keys[0]);
    }
    assert forall r: RoomId, s: SocketId :: Seat(r, s) !in w.joined;
    assert forall x :: x in w.joined ==> x == Seat(x.room, x.socket);
  }

  lemma PeersOfAnEmptyHouse(h: History, n: nat)
    requires DisciplinedRun(h) && n <= |h.actions| && h.states[n].data == map[]
    ensures forall o :: o in h.states[n].sfu.peers <==> Evicted(h, n, o)
  {
    forall o ensures o in h.states[n].sfu.peers <==> Evicted(h, n, o) {
      StrandedAreEvicted(h, n, o);
    }
  }

  /** The residue exactly: when everybody has gone from a disciplined run, the calls still open are
      those of the peers that a kick evicted and that did not come back; nothing at all is open if and
      only if there was no such kick. */
  lemma ResidueExactly(h: History, n: nat)
    requires DisciplinedRun(h) && n <= |h.actions| && h.states[n].data == map[]
    ensures var w := h.states[n]; w.peers == map[] && w.rates == map[] && w.joined == {}
    ensures forall call :: call in h.states[n].sfu.calls <==> exists o: Owner :: o.call == call && Evicted(h, n, o)
    ensures h.states[n].sfu.calls == map[] <==> forall o :: !Evicted(h, n, o)
  {
    DisciplinedRunsAgree(h, n);
    EmptyHouse(h.states[n]);
    PeersOfAnEmptyHouse(h, n);
    CallsOfEvicted(h, n);
    forall o: Owner | Evicted(h, n, o) ensures o.call in h.states[n].sfu.calls {
    }
    forall call | call in h.states[n].sfu.calls ensures exists o: Owner :: Evicted(h, n, o) {
      var o: Owner :| o.call == call && Evicted(h, n, o);
    }
    assert h.states[n].sfu.calls != map[] ==> exists call :: call in h.states[n].sfu.calls;
  }

  lemma CallsOfEvicted(h: History, n: nat)
    requires IsRun(h) && n <= |h.actions| && forall o :: o in h.states[n].sfu.peers <==> Evicted(h, n, o)
    ensures forall call :: call in h.states[n].sfu.calls <==> exists o: Owner :: o.call == call && Evicted(h, n, o)
  {
    SfuInEveryRun(h, n);
    forall call ensures call in h.states[n].sfu.calls <==> exists o: Owner :: o.call == call && Evicted(h, n, o) {
      CallsArePeersCalls(h.states[n].sfu, call);
    }
  }

  /** In a disciplined run without kicks, when everybody has gone nothing is left. */
  lemma NoResidue(h: History, n: nat)
    requires DisciplinedRun(h) && n <= |h.actions| && h.states[n].data == map[]
    requires forall i :: 0 <= i < n ==> !h.actions[i].Kick?
    ensures var w := h.states[n];
      w.peers == map[] && w.rates == map[] && w.joined == {} && w.sfu.calls == map[] && w.sfu.media.routers == map[] &&
      w.sfu.media.transports == map[] && w.sfu.media.producers == map[] && w.sfu.media.consumers == map[]
  {
    ResidueExactly(h, n);
    SfuInEveryRun(h, n);
    NoCallNothingOpen(h.states[n].sfu);
  }

  // ---- a run that leaves something, one action at a time ----

  lemma ConnectAt(h: History, n: nat, s: SocketId, user: UserId)
    requires IsRun(h) && n < |h.actions| && h.actions[n] == Connect(s, user) && s !in h.states[n].users
    ensures var w, w' := h.states[n], h.states[n + 1];
      w'.users == w.users[s := user] && w'.data == w.data[s := None]
  {
    assert h.states[n + 1] == Step(h.states[n], h.actions[n]);
  }

  lemma JoinAt(h: History, n: nat, s: SocketId, room: RoomId)
    requires IsRun(h) && n < |h.actions| && h.actions[n] == Join(s, room, true) && s in h.states[n].data && s in h.states[n].users
    ensures var w, w' := h.states[n], h.states[n + 1];
      w'.users == w.users && w'.data == w.data[s := Some(room)]
  {
    assert h.states[n + 1] == Step(h.states[n], h.actions[n]);
  }

  lemma CapabilitiesAt(h: History, n: nat, s: SocketId, room: RoomId)
    requires IsRun(h) && n < |h.actions| && h.actions[n] == GetCapabilities(s) && h.workers != []
    requires RoomOf(h.states[n], s) == Some(room) && s in h.states[n].users
    ensures var w, w' := h.states[n], h.states[n + 1];
      w'.users == w.users && w'.data == w.data && Owner(room, s) in w'.sfu.peers
  {
    SfuInEveryRun(h, n);
    WorkersStay(h, n);
    assert h.states[n + 1] == Step(h.states[n], h.actions[n]);
  }

  lemma KickAt(h: History, n: nat, s: SocketId, victim: SocketId, room: RoomId)
    requires IsRun(h) && n < |h.actions| && Agree(h.states[n])
    requires s in h.states[n].data && victim in h.states[n].data && victim in h.states[n].users
    requires RoomOf(h.states[n], s) == Some(room) && RoomOf(h.states[n], victim) == Some(room)
    requires forall x :: x in h.states[n].users && h.states[n].users[x] == h.states[n].users[victim] ==> x == victim
    requires h.actions[n] == Kick(s, None, h.states[n].users[victim], true)
    ensures var w, w' := h.states[n], h.states[n + 1];
      w'.users == w.users && w'.data == w.data[victim := None] && w'.sfu == w.sfu
  {
    var w := h.states[n];
    PeerMap.SocketOfUserIsPeer(w.peers, room, w.users[victim]);
    assert PeerMap.IsPeer(w.peers, room, victim);
    assert h.states[n + 1] == Step(w, h.actions[n]);
  }

  lemma DisconnectAt(h: History, n: nat, s: SocketId, o: Owner)
    requires IsRun(h) && n < |h.actions| && h.actions[n] == Disconnect(s) && s in h.states[n].data
    requires o in h.states[n].sfu.peers && RoomOf(h.states[n], o.socket) != Some(o.call)
    ensures var w, w' := h.states[n], h.states[n + 1];
      w'.data == w.data - {s} && o in w'.sfu.peers
  {
    SfuInEveryRun(h, n);
    SfuPeersAfter(h.states[n], h.actions[n], o);
    assert h.states[n + 1] == Step(h.states[n], h.actions[n]);
  }

  // ---- witnesses ----

  /** Two users meet in room 5. */
  const MEETING := [Connect(1, 10), Connect(2, 20), Join(1, 5, true), Join(2, 5, true)]

  lemma Meeting(h: History)
    requires IsRun(h) && MEETING <= h.actions
    ensures forall n :: 0 <= n < 4 ==> Disciplined(h.states[n], h.actions[n])
    ensures h.states[4].users == map[1 := 10, 2 := 20] && h.states[4].data == map[1 := Some(5), 2 := Some(5)]
  {
    ConnectAt(h, 0, 1, 10);
    ConnectAt(h, 1, 2, 20);
    JoinAt(h, 2, 1, 5);
    JoinAt(h, 3, 2, 5);
  }

  /** One of them is kicked while it has an SFU peer, and both disconnect. */
  const KICK_SCENARIO := MEETING + [GetCapabilities(2), Kick(1, None, 20, true), Disconnect(2), Disconnect(1)]

  lemma KickScenarioStarts(h: History)
    requires IsRun(h) && h.actions == KICK_SCENARIO && h.workers != []
    ensures DisciplinedRun(h)
    ensures var w := h.states[5];
      w.users == map[1 := 10, 2 := 20] && w.data == map[1 := Some(5), 2 := Some(5)] && Owner(5, 2) in w.sfu.peers
  {
    Meeting(h);
    CapabilitiesAt(h, 4, 2, 5);
  }

  lemma KickScenarioEnds(h: History)
    requires IsRun(h) && h.actions == KICK_SCENARIO && Agree(h.states[5])
    requires var w := h.states[5];
      w.users == map[1 := 10, 2 := 20] && w.data == map[1 := Some(5), 2 := Some(5)] && Owner(5, 2) in w.sfu.peers
    ensures h.states[8].data == map[] && Owner(5, 2) in h.states[8].sfu.peers
  {
    KickAt(h, 5, 1, 2, 5);
    DisconnectAt(h, 6, 2, Owner(5, 2));
    DisconnectAt(h, 7, 1, Owner(5, 2));
  }

  lemma PeerKeepsCallOpen(s: Sfu, o: Owner)
    requires PeersOk(s) && RoutersOk(s) && o in s.peers
    ensures s.calls != map[] && s.media.routers != map[]
  {
    assert o.call in s.calls && s.calls[o.call].router in s.media.routers;
  }

  /** With a kick, what `NoResidue` says of runs without one can fail: nobody is connected, and the
      call and its router are still open. */
  lemma KickLeavesResidue(workers: seq<nat>) returns (h: History)
    requires workers != []
    ensures DisciplinedRun(h) && h.workers == workers && h.states[|h.actions|].data == map[]
    ensures h.states[|h.actions|].sfu.calls != map[] && h.states[|h.actions|].sfu.media.routers != map[]
  {
    h := Play(workers, KICK_SCENARIO);
    KickScenarioStarts(h);
    DisciplinedRunsAgree(h, 5);
    KickScenarioEnds(h);
    SfuInEveryRun(h, 8);
    PeerKeepsCallOpen(h.states[8].sfu, Owner(5, 2));
  }

  /** One more action after the meeting. */
  function AfterMeeting(workers: seq<nat>, a: Action): (h: History)
    ensures IsRun(h) && h.workers == workers && h.actions == MEETING + [a]
  {
    Play(workers, MEETING + [a])
  }

  lemma MeetingAgrees(workers: seq<nat>, a: Action)
    ensures Agree(AfterMeeting(workers, a).states[4])
  {
    var h := AfterMeeting(workers, a);
    var meeting := History(workers, MEETING, h.states[..5]);
    assert IsRun(meeting) by {
      assert forall n :: 0 <= n < 4 ==> meeting.actions[n] == h.actions[n];
    }
    Meeting(meeting);
    DisciplinedRunsAgree(meeting, 4);
  }

  /** A reachable join that is not disciplined: user 10's socket joins a second room. Everything
      before it is disciplined, and after it the tables disagree. */
  lemma SecondRoomDisagrees(workers: seq<nat>)
    ensures var h := AfterMeeting(workers, Join(1, 6, true));
      (forall n :: 0 <= n < 4 ==> Disciplined(h.states[n], h.actions[n])) && !TablesAgree(h.states[5])
  {
    var h := AfterMeeting(workers, Join(1, 6, true));
    Meeting(h);
    MeetingAgrees(workers, Join(1, 6, true));
    UndisciplinedJoinDisagrees(h.states[4], 1, 6, true);
    assert h.states[5] == Step(h.states[4], h.actions[4]);
  }

  /** And a reachable leave: the socket leaves a room that is not its own. */
  lemma ForeignLeaveDisagrees(workers: seq<nat>)
    ensures var h := AfterMeeting(workers, Leave(1, Some(6), true));
      (forall n :: 0 <= n < 4 ==> Disciplined(h.states[n], h.actions[n])) && !TablesAgree(h.states[5])
  {
    var h := AfterMeeting(workers, Leave(1, Some(6), true));
    Meeting(h);
    MeetingAgrees(workers, Leave(1, Some(6), true));
    UndisciplinedLeaveDisagrees(h.states[4], 1, Some(6), true);
    assert h.states[5] == Step(h.states[4], h.actions[4]);
  }

  /** User 20 is in the room with two sockets. */
  const TWO_SOCKETS :=
    [Connect(1, 10), Connect(2, 20), Connect(3, 20), Join(1, 5, true), Join(2, 5, true), Join(3, 5, true)]

  lemma ThreeConnect(h: History)
    requires IsRun(h) && TWO_SOCKETS <= h.actions
    ensures h.states[3].users == map[1 := 10, 2 := 20, 3 := 20]
    ensures h.states[3].data == map[1 := None, 2 := None, 3 := None]
  {
    ConnectAt(h, 0, 1, 10);
    ConnectAt(h, 1, 2, 20);
    ConnectAt(h, 2, 3, 20);
  }

  lemma TwoSockets(h: History)
    requires IsRun(h) && TWO_SOCKETS <= h.actions
    ensures forall n :: 0 <= n < 6 ==> Disciplined(h.states[n], h.actions[n])
    ensures h.states[6].users == map[1 := 10, 2 := 20, 3 := 20]
    ensures h.states[6].data == map[1 := Some(5), 2 := Some(5), 3 := Some(5)]
  {
    ThreeConnect(h);
    JoinAt(h, 3, 1, 5);
    JoinAt(h, 4, 2, 5);
    JoinAt(h, 5, 3, 5);
  }

  /** A kick that the database allows, after which the user is still in the room. */
  lemma KickLeavesASocket(workers: seq<nat>) returns (h: History, s: SocketId)
    ensures DisciplinedRun(h) && h.workers == workers && h.actions == TWO_SOCKETS + [Kick(1, None, 20, true)]
    ensures PeerMap.PeerOf(h.states[7].peers, 5, s, 20) && RoomOf(h.states[7], s) == Some(5)
  {
    h := Play(workers, TWO_SOCKETS + [Kick(1, None, 20, true)]);
    TwoSockets(h);
    DisciplinedRunsAgree(h, 6);
    DisciplinedRunsAgree(h, 7);
    s := StillThere(h.states[6], h.states[7]);
  }

  lemma StillThere(w: World, w': World) returns (s: SocketId)
    requires Agree(w) && Agree(w') && w' == Step(w, Kick(1, None, 20, true))
    requires w.users == map[1 := 10, 2 := 20, 3 := 20] && w.data == map[1 := Some(5), 2 := Some(5), 3 := Some(5)]
    ensures PeerMap.PeerOf(w'.peers, 5, s, 20) && RoomOf(w', s) == Some(5)
  {
    assert PeerMap.IsPeer(w.peers, 5, 2) && PeerMap.IsPeer(w.peers, 5, 3);
    assert PeerMap.PeerOf(w.peers, 5, 2, 20) && PeerMap.PeerOf(w.peers, 5, 3, 20);
    KickEmptiesIff(w, 1, None, 20, 5);
    s :| PeerMap.PeerOf(w'.peers, 5, s, 20);
    assert PeerMap.IsPeer(w'.peers, 5, s);
  }
}
