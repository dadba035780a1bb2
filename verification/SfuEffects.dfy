/** What each SFU operation does to the tables: exactly when it succeeds, what is new, what stays. */
module SfuEffects {
  import opened Ids
  import opened JsMaps
  import opened SfuModel
  import opened SfuProofs
  import opened SfuResults

  /** Nothing of the calls and peers has changed but one peer. */
  ghost predicate OnlyPeer(s: Sfu, s': Sfu, o: Owner) {
    s'.workers == s.workers && s'.nextWorkerIndex == s.nextWorkerIndex && s'.calls == s.calls &&
    s'.media.routers == s.media.routers && s'.peers.Keys == s.peers.Keys &&
    forall q :: q in s.peers && q != o ==> s'.peers[q] == s.peers[q]
  }

  // ---- asking for capabilities ----

  /** Asking fails only without workers. Afterwards the call is there and the socket is in it; a new
      socket comes last, under its user and with nothing open, and whoever was there is untouched. */
  lemma AskExactly(s: Sfu, o: Owner, user: UserId)
    requires Inv(s)
    ensures GetRtpCapabilities(s, o, user).Ok? <==> s.workers != []
    ensures s.workers != [] ==>
      var s' := GetRtpCapabilities(s, o, user).value;
      var sockets := if o.call in s.calls then s.calls[o.call].sockets else [];
      (forall q :: q in s'.peers <==> q in s.peers || q == o) && (forall q :: q in s.peers ==> s'.peers[q] == s.peers[q]) &&
      (o !in s.peers ==> s'.peers[o] == PeerState(user, [], [], [])) &&
      (forall c :: c in s'.calls <==> c in s.calls || c == o.call) &&
      (forall c :: c in s.calls && c != o.call ==> s'.calls[c] == s.calls[c]) &&
      s'.calls[o.call].sockets == (if o in s.peers then sockets else sockets + [o.socket]) &&
      (o.call in s.calls ==> s'.calls[o.call].router == s.calls[o.call].router && s'.media == s.media)
    ensures s.workers != [] && o.call !in s.calls ==>
      var s' := GetRtpCapabilities(s, o, user).value;
      var router := s'.calls[o.call].router;
      router !in s.media.routers &&
      s'.media.routers == s.media.routers[router := Router(o.call, s.workers[s.nextWorkerIndex])] &&
      s'.media.transports == s.media.transports && s'.media.producers == s.media.producers &&
      s'.media.consumers == s.media.consumers && s'.media.closing == s.media.closing
  {
  }

  // ---- transports ----

  /** A transport can be made exactly by a peer. It is new, open, the peer's, of the direction asked for
      and last in its list; no other transport, producer or consumer changes. */
  lemma CreateTransportExactly(s: Sfu, o: Owner, direction: Direction)
    requires Inv(s)
    ensures CreateTransport(s, o, direction).Ok? <==> o in s.peers
    ensures o in s.peers ==>
      var s', id := CreateTransport(s, o, direction).value, s.media.nextId;
      OnlyPeer(s, s', o) && id !in s.media.transports &&
      s'.media.transports == s.media.transports[id := Transport(o, s.calls[o.call].router, direction)] &&
      s'.peers[o].transports == s.peers[o].transports + [id] && s'.peers[o].userId == s.peers[o].userId &&
      s'.peers[o].producers == s.peers[o].producers && s'.peers[o].consumers == s.peers[o].consumers &&
      s'.media.producers == s.media.producers && s'.media.consumers == s.media.consumers &&
      s'.media.closing == s.media.closing
  {
  }

  /** A peer can receive once it has made a transport to receive, or could before. */
  lemma CreateTransportGivesRecv(s: Sfu, o: Owner, direction: Direction, q: Owner)
    requires Inv(s) && o in s.peers
    ensures HasRecv(CreateTransport(s, o, direction).value, q) <==> HasRecv(s, q) || (q == o && direction.Recv?)
  {
    CreateTransportExactly(s, o, direction);
    var s', id := CreateTransport(s, o, direction).value, s.media.nextId;
    if q in s.peers {
      assert forall t :: t in s.peers[q].transports ==> t in s'.peers[q].transports && t != id;
      assert q == o ==> id in s'.peers[q].transports;
      assert forall t :: t in s'.peers[q].transports ==> t in s.peers[q].transports || (q == o && t == id);
    }
  }

  // ---- producers ----

  /** A producer can be made exactly by a peer on a transport of its own. It is new, open, the peer's,
      on that transport, of that kind and last in its list; nothing else changes. */
  lemma ProduceExactly(s: Sfu, o: Owner, transport: Id, kind: Kind)
    requires Inv(s)
    ensures Produce(s, o, transport, kind).Ok? <==> transport in s.media.transports && s.media.transports[transport].owner == o
    ensures Produce(s, o, transport, kind).Ok? ==>
      var s', id := Produce(s, o, transport, kind).value, s.media.nextId;
      OnlyPeer(s, s', o) && id !in s.media.producers &&
      s'.media.producers == s.media.producers[id := Producer(o, transport, kind)] &&
      s'.peers[o].producers == s.peers[o].producers + [id] && s'.peers[o].userId == s.peers[o].userId &&
      s'.peers[o].transports == s.peers[o].transports && s'.peers[o].consumers == s.peers[o].consumers &&
      s'.media.transports == s.media.transports && s'.media.consumers == s.media.consumers &&
      s'.media.closing == s.media.closing
  {
  }

  // ---- consumers ----

  /** A new consumer is paused, of the producer asked for, on the peer's earliest recv transport and last
      in its list; nothing else changes. When `consume` succeeds is `ConsumeSucceedsExactly`. */
  lemma ConsumeExactly(s: Sfu, o: Owner, producer: Id, compatible: bool)
    requires Inv(s) && Consume(s, o, producer, compatible).Ok?
    ensures var s', id := Consume(s, o, producer, compatible).value, s.media.nextId;
      OnlyPeer(s, s', o) && id !in s.media.consumers && id in s'.media.consumers &&
      s'.media.consumers == s.media.consumers[id := s'.media.consumers[id]] &&
      s'.peers[o].consumers == s.peers[o].consumers + [id] && s'.peers[o].userId == s.peers[o].userId &&
      s'.peers[o].transports == s.peers[o].transports && s'.peers[o].producers == s.peers[o].producers &&
      s'.media.transports == s.media.transports && s'.media.producers == s.media.producers &&
      s'.media.closing == s.media.closing
    ensures var s', id := Consume(s, o, producer, compatible).value, s.media.nextId;
      var x := s'.media.consumers[id];
      x.owner == o && x.producer == producer && x.paused && EarliestRecv(s.media, s.peers[o].transports, x.transport)
  {
    FindRecvIsEarliest(s.media, s.peers[o].transports);
  }

  /** A consumer can be resumed exactly by its owner. It is then not paused; nothing else changes. */
  lemma ResumeExactly(s: Sfu, o: Owner, consumer: Id)
    requires Inv(s)
    ensures ResumeConsumer(s, o, consumer).Ok? <==>
      consumer in s.media.consumers && s.media.consumers[consumer].owner == o
    ensures ResumeConsumer(s, o, consumer).Ok? ==>
      ResumeConsumer(s, o, consumer).value ==
        s.(media := s.media.(consumers :=
          s.media.consumers[consumer := s.media.consumers[consumer].(paused := false)]))
  {
  }

  /** A delivered `producerclose` closes its consumer, if it was pending, and takes it out of its owner's
      list; nothing else changes. */
  lemma DeliverExactly(s: Sfu, consumer: Id)
    requires Inv(s)
    ensures var s' := DeliverProducerClose(s, consumer);
      if consumer !in s.media.closing then s' == s
      else
        var o := s.media.consumers[consumer].owner;
        OnlyPeer(s, s', o) && s'.media.closing == s.media.closing - {consumer} &&
        s'.media.consumers == s.media.consumers - {consumer} &&
        s'.media.transports == s.media.transports && s'.media.producers == s.media.producers &&
        (forall c :: c in s'.peers[o].consumers <==> c in s.peers[o].consumers && c != consumer) &&
        s'.peers[o].transports == s.peers[o].transports && s'.peers[o].producers == s.peers[o].producers &&
        s'.peers[o].userId == s.peers[o].userId
  {
  }

  /** Pending notifications can all be delivered: each delivery leaves one fewer. */
  lemma {:induction false} Drains(s: Sfu) returns (drained: Sfu, order: seq<Id>)
    requires Inv(s)
    ensures drained == DeliverAll(s, order) && Inv(drained) && drained.media.closing == {}
    ensures drained.media.producers == s.media.producers && drained.peers.Keys == s.peers.Keys
    decreases |s.media.closing|
  {
    if c: Id :| c in s.media.closing {
      DeliverExactly(s, c);
      DeliverProducerCloseKeeps(s, c);
      var rest;
      drained, rest := Drains(DeliverProducerClose(s, c));
      order := [c] + rest;
      assert order[1..] == rest;
    } else {
      drained, order := s, [];
      assert forall c :: c !in s.media.closing;
    }
  }

  function DeliverAll(s: Sfu, order: seq<Id>): Sfu
    decreases |order|
  {
    if order == [] then s else DeliverAll(DeliverProducerClose(s, order[0]), order[1..])
  }

  // ---- leaving ----

  /** Who stays when a peer leaves keeps everything, in the same order. */
  lemma RemovePeerKeepsOthers(s: Sfu, o: Owner)
    requires Inv(s) && o in s.peers
    ensures var s' := RemovePeer(s, o);
      (forall q :: q in s'.peers <==> q in s.peers && q != o) && (forall q :: q in s'.peers ==> s'.peers[q] == s.peers[q]) &&
      (forall c :: c in s.calls && c != o.call ==> c in s'.calls && s'.calls[c] == s.calls[c]) &&
      (forall r :: r in s'.media.routers <==> r in s.media.routers && (r == s.calls[o.call].router ==> o.call in s'.calls)) &&
      (forall t :: t in s'.media.transports ==> s'.media.transports[t] == s.media.transports[t]) &&
      (forall p :: p in s'.media.producers ==> s'.media.producers[p] == s.media.producers[p]) &&
      (forall c :: c in s'.media.consumers ==> s'.media.consumers[c] == s.media.consumers[c])
    ensures var s' := RemovePeer(s, o);
      o.call in s'.calls ==>
        s'.calls[o.call].router == s.calls[o.call].router && InOrder(s'.calls[o.call].sockets, s.calls[o.call].sockets)
  {
    OnOwnTransports(s, o);
    WithoutKeepsOrder(s.calls[o.call].sockets, o.socket);
  }

  /** `a` lists some of what `b` lists, in the same order. */
  ghost predicate InOrder(a: seq<SocketId>, b: seq<SocketId>) {
    forall i, j :: 0 <= i < j < |a| ==> Precedes(a[i], a[j], b)
  }

  ghost predicate Precedes(x: SocketId, y: SocketId, s: seq<SocketId>) {
    exists i, j :: 0 <= i < j < |s| && s[i] == x && s[j] == y
  }

  lemma {:induction false} WithoutKeepsOrder(s: seq<SocketId>, x: SocketId)
    ensures InOrder(Without(s, x), s)
  {
    if s != [] {
      var rest := Without(s[1..], x);
      WithoutKeepsOrder(s[1..], x);
      forall i, j | 0 <= i < j < |rest| ensures Precedes(rest[i], rest[j], s) {
        assert Precedes(rest[i], rest[j], s[1..]);
        var k, l :| 0 <= k < l < |s[1..]| && s[1..][k] == rest[i] && s[1..][l] == rest[j];
        assert s[k + 1] == rest[i] && s[l + 1] == rest[j];
      }
      if s[0] != x {
        forall j | 0 <= j < |rest| ensures Precedes(s[0], rest[j], s) {
          assert rest[j] in s[1..];
          var l :| 0 <= l < |s[1..]| && s[1..][l] == rest[j];
          assert s[l + 1] == rest[j];
        }
      }
    }
  }

  // ---- the order of a listing ----

  lemma PrecedesLater(x: int, y: int, s: seq<int>, z: int)
    requires Precedes(x, y, s)
    ensures Precedes(x, y, [z] + s)
  {
    var i, j :| 0 <= i < j < |s| && s[i] == x && s[j] == y;
    assert ([z] + s)[i + 1] == x && ([z] + s)[j + 1] == y;
  }

  lemma FirstPrecedes(x: int, y: int, s: seq<int>)
    requires y in s
    ensures Precedes(x, y, [x] + s)
  {
    var j :| 0 <= j < |s| && s[j] == y;
    assert ([x] + s)[0] == x && ([x] + s)[j + 1] == y;
  }

  ghost predicate ByCreation(es: seq<Entry>, socket: SocketId, ids: seq<Id>) {
    (forall i :: 0 <= i < |es| ==> es[i].socketId == socket && es[i].producerId in ids) &&
    forall i, j :: 0 <= i < j < |es| ==> Precedes(es[i].producerId, es[j].producerId, ids)
  }

  lemma {:induction false} EntriesAreInOrder(m: Media, socket: SocketId, peer: PeerState, ids: seq<Id>)
    ensures ByCreation(EntriesOf(m, socket, peer, ids), socket, ids)
  {
    if ids != [] {
      var rest := EntriesOf(m, socket, peer, ids[1..]);
      EntriesAreInOrder(m, socket, peer, ids[1..]);
      assert ids == [ids[0]] + ids[1..];
      forall i, j | 0 <= i < j < |rest| ensures Precedes(rest[i].producerId, rest[j].producerId, ids) {
        PrecedesLater(rest[i].producerId, rest[j].producerId, ids[1..], ids[0]);
      }
      forall j | 0 <= j < |rest| ensures Precedes(ids[0], rest[j].producerId, ids) {
        FirstPrecedes(ids[0], rest[j].producerId, ids[1..]);
      }
      assert ByCreation(rest, socket, ids);
    }
  }

  /** Of two listed producers the first is of the socket that entered the call first, or of the same
      socket and made first. */
  ghost predicate Listed(s: Sfu, call: CallId, sockets: seq<SocketId>, e: Entry, f: Entry) {
    Precedes(e.socketId, f.socketId, sockets) ||
    (e.socketId == f.socketId && Owner(call, e.socketId) in s.peers &&
     Precedes(e.producerId, f.producerId, s.peers[Owner(call, e.socketId)].producers))
  }

  ghost predicate AllListed(s: Sfu, call: CallId, sockets: seq<SocketId>, es: seq<Entry>) {
    (forall i :: 0 <= i < |es| ==> es[i].socketId in sockets) &&
    forall i, j :: 0 <= i < j < |es| ==> Listed(s, call, sockets, es[i], es[j])
  }

  lemma {:induction false} PeersAreInOrder(s: Sfu, call: CallId, sockets: seq<SocketId>, except: SocketId)
    ensures AllListed(s, call, sockets, ListPeers(s, call, sockets, except))
  {
    if sockets != [] {
      PeersAreInOrder(s, call, sockets[1..], except);
      var rest := ListPeers(s, call, sockets[1..], except);
      var o := Owner(call, sockets[0]);
      assert sockets == [sockets[0]] + sockets[1..];
      forall i, j | 0 <= i < j < |rest| ensures Listed(s, call, sockets, rest[i], rest[j]) {
        if Precedes(rest[i].socketId, rest[j].socketId, sockets[1..]) {
          PrecedesLater(rest[i].socketId, rest[j].socketId, sockets[1..], sockets[0]);
        }
      }
      assert AllListed(s, call, sockets, rest);
      if o.socket != except && o in s.peers {
        EntriesAreInOrder(s.media, o.socket, s.peers[o], s.peers[o].producers);
        forall j | 0 <= j < |rest| ensures Precedes(sockets[0], rest[j].socketId, sockets) {
          FirstPrecedes(sockets[0], rest[j].socketId, sockets[1..]);
        }
      }
    }
  }

  /** `listOtherProducers` lists by order of entry into the call, then by order of creation. */
  lemma ListingIsInOrder(s: Sfu, call: CallId, socket: SocketId)
    requires call in s.calls
    ensures AllListed(s, call, s.calls[call].sockets, ListOtherProducers(s, call, socket))
  {
    PeersAreInOrder(s, call, s.calls[call].sockets, socket);
  }
}
