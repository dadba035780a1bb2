/** What the SFU invariant means for the resources that are open and for the producer lists. */
module SfuResults {
  import opened Ids
  import opened JsMaps
  import opened SfuModel
  import opened SfuProofs

  // ---- conservation ----

  ghost predicate HeldTransport(s: Sfu, o: Owner, t: Id) { o in s.peers && t in s.peers[o].transports }
  ghost predicate HeldProducer(s: Sfu, o: Owner, p: Id) { o in s.peers && p in s.peers[o].producers }
  ghost predicate HeldConsumer(s: Sfu, o: Owner, c: Id) { o in s.peers && c in s.peers[o].consumers }

  /** Open routers are those of `calls`, one each; everything else open is in exactly one peer's map. */
  lemma OpenIsHeldOnce(s: Sfu)
    requires Inv(s)
    ensures forall r :: r in s.media.routers <==> exists c :: c in s.calls && s.calls[c].router == r
    ensures forall c, d :: c in s.calls && d in s.calls && s.calls[c].router == s.calls[d].router ==> c == d
    ensures forall t :: t in s.media.transports <==> exists o :: HeldTransport(s, o, t)
    ensures forall p :: p in s.media.producers <==> exists o :: HeldProducer(s, o, p)
    ensures forall c :: c in s.media.consumers <==> exists o :: HeldConsumer(s, o, c)
    ensures forall o, q, x :: HeldTransport(s, o, x) && HeldTransport(s, q, x) ==> o == q
    ensures forall o, q, x :: HeldProducer(s, o, x) && HeldProducer(s, q, x) ==> o == q
    ensures forall o, q, x :: HeldConsumer(s, o, x) && HeldConsumer(s, q, x) ==> o == q
  {
    forall t | t in s.media.transports ensures exists o :: HeldTransport(s, o, t) {
      assert HeldTransport(s, s.media.transports[t].owner, t);
    }
    forall p | p in s.media.producers ensures exists o :: HeldProducer(s, o, p) {
      assert HeldProducer(s, s.media.producers[p].owner, p);
    }
    forall c | c in s.media.consumers ensures exists o :: HeldConsumer(s, o, c) {
      assert HeldConsumer(s, s.media.consumers[c].owner, c);
    }
  }

  ghost predicate NothingOpen(s: Sfu, call: CallId) {
    (forall r :: r in s.media.routers ==> s.media.routers[r].call != call) &&
    (forall t :: t in s.media.transports ==> s.media.transports[t].owner.call != call) &&
    (forall p :: p in s.media.producers ==> s.media.producers[p].owner.call != call) &&
    (forall c :: c in s.media.consumers ==> s.media.consumers[c].owner.call != call)
  }

  /** A call has something open exactly while it has a peer; the last `removePeer` closes it all. */
  lemma LastPeerLeavesNothing(s: Sfu, o: Owner)
    requires Inv(s) && o in s.peers
    ensures NothingOpen(RemovePeer(s, o), o.call) <==> s.calls[o.call].sockets == [o.socket]
    ensures o.call in RemovePeer(s, o).calls <==> exists q :: q in s.peers && q.call == o.call && q != o
  {
    RemovePeerKeeps(s, o);
    var s', sockets := RemovePeer(s, o), s.calls[o.call].sockets;
    if o.call in s'.calls {
      assert Owner(o.call, s'.calls[o.call].sockets[0]) in s'.peers;
      assert s'.calls[o.call].router in s'.media.routers;
    } else {
      assert forall i :: 0 <= i < |sockets| ==> sockets[i] == o.socket;
    }
  }

  /** Once every `producerclose` is delivered, no consumer refers to a producer nobody holds. */
  lemma DrainedConsumersHaveSources(s: Sfu, c: Id)
    requires Inv(s) && s.media.closing == {} && c in s.media.consumers
    ensures exists o: Owner :: o.call == s.media.consumers[c].owner.call && HeldProducer(s, o, s.media.consumers[c].producer)
  {
    var x := s.media.consumers[c];
    assert HeldProducer(s, s.media.producers[x.producer].owner, x.producer);
  }

  // ---- producer lists ----

  ghost function EntryOf(s: Sfu, p: Id): Entry
    requires ProducersOk(s) && p in s.media.producers
  {
    var x := s.media.producers[p];
    Entry(p, x.owner.socket, s.peers[x.owner].userId, x.kind)
  }

  /** The other peers' open producers of a call, as a set. */
  ghost function Others(s: Sfu, call: CallId, socket: SocketId): set<Entry>
    requires ProducersOk(s)
  {
    set p | p in s.media.producers && s.media.producers[p].owner.call == call &&
            s.media.producers[p].owner.socket != socket :: EntryOf(s, p)
  }

  lemma {:induction false} EntriesOfMember(m: Media, socket: SocketId, peer: PeerState, ids: seq<Id>, e: Entry)
    ensures e in EntriesOf(m, socket, peer, ids) <==>
      e.producerId in ids && e.producerId in m.producers &&
      e == Entry(e.producerId, socket, peer.userId, m.producers[e.producerId].kind)
  {
    if ids != [] {
      EntriesOfMember(m, socket, peer, ids[1..], e);
      assert ids == [ids[0]] + ids[1..];
    }
  }

  lemma {:induction false} ListPeersMember(s: Sfu, call: CallId, sockets: seq<SocketId>, except: SocketId, e: Entry)
    requires ProducersOk(s)
    ensures e in ListPeers(s, call, sockets, except) <==>
      e.socketId in sockets && e.socketId != except && e.producerId in s.media.producers &&
      s.media.producers[e.producerId].owner == Owner(call, e.socketId) && e == EntryOf(s, e.producerId)
  {
    if sockets != [] {
      ListPeersMember(s, call, sockets[1..], except, e);
      assert sockets == [sockets[0]] + sockets[1..];
      var o := Owner(call, sockets[0]);
      if o in s.peers {
        EntriesOfMember(s.media, o.socket, s.peers[o], s.peers[o].producers, e);
      }
    }
  }

  /** The list that `listOtherProducers` builds is the set of the other peers' producers. */
  lemma ListedAreOthers(s: Sfu, call: CallId, socket: SocketId)
    requires Inv(s)
    ensures forall e :: e in ListOtherProducers(s, call, socket) <==> e in Others(s, call, socket)
  {
    forall e ensures e in ListOtherProducers(s, call, socket) <==> e in Others(s, call, socket) {
      if call in s.calls {
        ListPeersMember(s, call, s.calls[call].sockets, socket, e);
        if e in Others(s, call, socket) {
          assert s.media.producers[e.producerId].owner in s.peers;
        }
      }
    }
  }

  // ---- how the operations change the others' producers ----

  lemma OthersFrame(s: Sfu, s': Sfu)
    requires ProducersOk(s) && ProducersOk(s') && s'.media.producers == s.media.producers
    requires forall o :: o in s.peers && o in s'.peers ==> s'.peers[o].userId == s.peers[o].userId
    ensures forall c, x :: Others(s', c, x) == Others(s, c, x)
  {
  }

  lemma OthersAfterProduce(s: Sfu, o: Owner, transport: Id, kind: Kind, call: CallId, x: SocketId)
    requires ProducersOk(s) && IdsOk(s) && Produce(s, o, transport, kind).Ok?
    requires ProducersOk(Produce(s, o, transport, kind).value)
    ensures var e := Entry(s.media.nextId, o.socket, s.peers[o].userId, kind);
      Others(Produce(s, o, transport, kind).value, call, x) ==
      Others(s, call, x) + if call == o.call && x != o.socket then {e} else {}
  {
    var s', id := Produce(s, o, transport, kind).value, s.media.nextId;
    assert forall p :: p in s'.media.producers <==> p == id || p in s.media.producers;
    assert forall p :: p in s.media.producers ==> EntryOf(s', p) == EntryOf(s, p);
    assert EntryOf(s', id) == Entry(id, o.socket, s.peers[o].userId, kind);
  }

  /** The ids listed before `removePeer` are exactly what the other peers lose. */
  lemma OthersAfterRemove(s: Sfu, o: Owner, call: CallId, x: SocketId)
    requires PeersOk(s) && TransportsOk(s) && ProducersOk(s) && ConsumersOk(s)
    requires ProducersOk(RemovePeer(s, o)) && x != o.socket
    ensures Others(RemovePeer(s, o), call, x) ==
      set e | e in Others(s, call, x) && !(call == o.call && e.producerId in ListOwnProducerIds(s, o))
  {
    if o in s.peers {
      OnOwnTransports(s, o);
      var s' := RemovePeer(s, o);
      RemovedProducers(s, s', o);
      assert forall p :: p in s'.media.producers ==> EntryOf(s', p) == EntryOf(s, p);
    }
  }

  lemma RemovedProducers(s: Sfu, s': Sfu, o: Owner)
    requires TransportsOk(s) && ProducersOk(s) && ConsumersOk(s) && o in s.peers && o.call in s.calls && s' == RemovePeer(s, o)
    ensures forall p :: p in s'.media.producers <==> p in s.media.producers && p !in s.peers[o].producers
    ensures forall p :: p in s'.media.producers ==> s'.media.producers[p] == s.media.producers[p]
    ensures forall q :: q in s'.peers ==> q in s.peers && s'.peers[q] == s.peers[q]
  {
    OnOwnTransports(s, o);
  }

  // ---- what can be consumed ----

  ghost predicate HasRecv(s: Sfu, o: Owner) {
    o in s.peers && exists t :: t in s.peers[o].transports && t in s.media.transports && s.media.transports[t].direction.Recv?
  }

  lemma {:induction false} FindRecvFinds(m: Media, ts: seq<Id>)
    ensures FindRecv(m, ts).None? <==> forall t :: t in ts && t in m.transports ==> !m.transports[t].direction.Recv?
  {
    if ts != [] {
      FindRecvFinds(m, ts[1..]);
      assert forall t :: t in ts <==> t == ts[0] || t in ts[1..];
    }
  }

  /** A peer with a recv transport can consume exactly the open producers of its own call. */
  lemma ConsumeSucceedsExactly(s: Sfu, o: Owner, producer: Id, compatible: bool)
    requires Inv(s)
    ensures Consume(s, o, producer, compatible).Ok? <==>
      HasRecv(s, o) && compatible && producer in s.media.producers && s.media.producers[producer].owner.call == o.call
  {
    if o in s.peers {
      FindRecvFinds(s.media, s.peers[o].transports);
      if producer in s.media.producers {
        RouterTellsCall(s, producer, o.call);
      }
    }
  }

  lemma RouterTellsCall(s: Sfu, producer: Id, call: CallId)
    requires RoutersOk(s) && TransportsOk(s) && ProducersOk(s) && producer in s.media.producers && call in s.calls
    ensures CanConsume(s.media, s.calls[call].router, producer, true) <==> s.media.producers[producer].owner.call == call
  {
    var t := s.media.producers[producer].transport;
    assert t in s.media.transports && s.media.transports[t].owner == s.media.producers[producer].owner;
  }

  /** Whatever `listOtherProducers` offers can be consumed. */
  lemma ListedCanBeConsumed(s: Sfu, o: Owner, e: Entry)
    requires Inv(s) && HasRecv(s, o) && e in ListOtherProducers(s, o.call, o.socket)
    ensures Consume(s, o, e.producerId, true).Ok?
  {
    ListedAreOthers(s, o.call, o.socket);
    ConsumeSucceedsExactly(s, o, e.producerId, true);
  }

  /** `removePeer` closes exactly what the peer owns; the consumers others have of its producers stay
      open until their `producerclose`. */
  lemma RemovePeerClosesItsOwn(s: Sfu, o: Owner)
    requires Inv(s) && o in s.peers
    ensures var m, m' := s.media, RemovePeer(s, o).media;
      (forall t :: t in m'.transports <==> t in m.transports && m.transports[t].owner != o) &&
      (forall p :: p in m'.producers <==> p in m.producers && m.producers[p].owner != o) &&
      (forall c :: c in m'.consumers <==> c in m.consumers && m.consumers[c].owner != o) &&
      (forall c :: c in m'.closing <==>
         c in m.consumers && m.consumers[c].owner != o && (c in m.closing || m.consumers[c].producer in s.peers[o].producers))
  {
    OnOwnTransports(s, o);
  }
}
