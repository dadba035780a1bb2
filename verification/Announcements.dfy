/** Who is told what about the producers of a room: `sfu:new-producer` and `sfu:producer-closed`. */
module Announcements {
  import opened Ids
  import opened JsMaps
  import opened SfuModel
  import opened World
  import opened Lifecycle
  import PeerMap
  import Runs

  /** One closed message for each producer, in order, and nothing else. */
  ghost predicate Told(before: seq<Msg>, after: seq<Msg>, ids: seq<Id>, s: SocketId) {
    |after| == |before| + |ids| && after[..|before|] == before &&
    forall k :: 0 <= k < |ids| ==> after[|before| + k] == ProducerClosed(ids[k], s)
  }

  predicate SameRoom(w: World, s: SocketId, x: SocketId) {
    RoomOf(w, s).Some? && RoomOf(w, x) == RoomOf(w, s) && x != s
  }

  /** The producers of the socket's peer in its room. */
  function OwnProducers(w: World, s: SocketId): seq<Id> {
    match RoomOf(w, s)
    case None => []
    case Some(room) => if Owner(room, s) in w.sfu.peers then w.sfu.peers[Owner(room, s)].producers else []
  }

  /** The socket has a peer in its room, and the transport is that peer's. */
  predicate MayProduce(w: World, s: SocketId, transport: Id) {
    s in w.users && RoomOf(w, s).Some? &&
    var o := Owner(RoomOf(w, s).value, s);
    o in w.sfu.peers && transport in w.sfu.peers[o].transports
  }

  lemma ProduceTells(w: World, s: SocketId, transport: Id, kind: Kind, x: SocketId)
    requires Agree(w) && x in w.inbox
    ensures var w' := OnProduce(w, s, transport, kind);
      x in w'.inbox &&
      w'.inbox[x] ==
        if MayProduce(w, s, transport) && SameRoom(w, s, x)
        then w.inbox[x] + [NewProducer(Entry(w.sfu.media.nextId, s, w.users[s], kind))] else w.inbox[x]
  {
    if RoomOf(w, s).Some? {
      assert Seat(RoomOf(w, s).value, x) in w.joined <==> RoomOf(w, x) == RoomOf(w, s);
    }
  }

  lemma CleanupTells(w: World, s: SocketId, x: SocketId)
    requires SeatsAgree(w) && x in w.inbox
    ensures var w' := CleanupSfuPeer(w, s);
      x in w'.inbox && Told(w.inbox[x], w'.inbox[x], if SameRoom(w, s, x) then OwnProducers(w, s) else [], s)
  {
    if RoomOf(w, s).Some? {
      assert Seat(RoomOf(w, s).value, x) in w.joined <==> RoomOf(w, x) == RoomOf(w, s);
    }
  }

  lemma LeaveTells(w: World, s: SocketId, target: Option<RoomId>, x: SocketId)
    requires Agree(w) && s in w.data && Target(w, s, target).Some? && x in w.inbox
    ensures var w' := OnLeave(w, s, target, true);
      x in w'.inbox && Told(w.inbox[x], w'.inbox[x], if SameRoom(w, s, x) then OwnProducers(w, s) else [], s)
  {
    CleanupTells(w.(peers := PeerMap.RemovePeer(w.peers, Target(w, s, target).value, s)), s, x);
  }

  lemma DisconnectTells(w: World, s: SocketId, x: SocketId)
    requires Agree(w) && x in w.inbox && x != s
    ensures var w' := OnDisconnect(w, s);
      x in w'.inbox && Told(w.inbox[x], w'.inbox[x], if SameRoom(w, s, x) then OwnProducers(w, s) else [], s)
  {
    if RoomOf(w, s).Some? {
      CleanupTells(w, s, x);
    }
  }

  /** At every moment of a disciplined run: a produce that succeeds tells every other socket of the room,
      and nobody else, of exactly the new producer; one that fails tells nobody. */
  lemma ProducersAreAnnounced(h: History, n: nat, x: SocketId)
    requires DisciplinedRun(h) && n < |h.actions| && h.actions[n].StartProducing? && x in h.states[n].inbox
    ensures x in h.states[n + 1].inbox
    ensures var w, w', a := h.states[n], h.states[n + 1], h.actions[n];
      w'.inbox[x] ==
        if MayProduce(w, a.socket, a.transport) && SameRoom(w, a.socket, x)
        then w.inbox[x] + [NewProducer(Entry(w.sfu.media.nextId, a.socket, w.users[a.socket], a.media))] else w.inbox[x]
  {
    var a := h.actions[n];
    Runs.DisciplinedRunsAgree(h, n);
    ProduceTells(h.states[n], a.socket, a.transport, a.media, x);
    assert h.states[n + 1] == Step(h.states[n], a);
  }

  /** When a socket leaves its room or disconnects, every other socket of that room, and nobody else, is
      told of the end of each of its producers, in order. */
  lemma DeparturesAreAnnounced(h: History, n: nat, s: SocketId, x: SocketId)
    requires DisciplinedRun(h) && n < |h.actions| && x in h.states[n].inbox && x != s && s in h.states[n].data
    requires h.actions[n] == Disconnect(s) ||
      (h.actions[n].Leave? && h.actions[n].socket == s && h.actions[n].dbOk && Target(h.states[n], s, h.actions[n].target).Some?)
    ensures x in h.states[n + 1].inbox
    ensures var w, w' := h.states[n], h.states[n + 1];
      Told(w.inbox[x], w'.inbox[x], if SameRoom(w, s, x) then OwnProducers(w, s) else [], s)
  {
    Runs.DisciplinedRunsAgree(h, n);
    if h.actions[n].Leave? {
      LeaveTells(h.states[n], s, h.actions[n].target, x);
    } else {
      DisconnectTells(h.states[n], s, x);
    }
    assert h.states[n + 1] == Step(h.states[n], h.actions[n]);
  }

  /** A kick tells nobody that the victim's producers are gone; they are not. */
  lemma KicksAreNotAnnounced(h: History, n: nat)
    requires IsRun(h) && n < |h.actions| && h.actions[n].Kick?
    ensures h.states[n + 1].inbox == h.states[n].inbox && h.states[n + 1].sfu == h.states[n].sfu
  {
    KickIsSilent(h.states[n], h.actions[n]);
  }

  lemma KickIsSilent(w: World, a: Action)
    requires a.Kick?
    ensures Step(w, a).inbox == w.inbox && Step(w, a).sfu == w.sfu
  {
  }
}
