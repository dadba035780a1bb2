/** Every SFU operation keeps the resource invariant. */
module SfuProofs {
  import opened Ids
  import opened SfuModel

  /** Old peers are still there, `s'` may have more. */
  ghost predicate Extends(s: Sfu, s': Sfu) {
    (forall o :: o in s.peers ==> o in s'.peers) &&
    (forall c :: c in s.calls ==> c in s'.calls && s'.calls[c].router == s.calls[c].router)
  }

  lemma TransportsFrame(s: Sfu, s': Sfu)
    requires TransportsOk(s) && Extends(s, s') && s'.media.transports == s.media.transports
    requires forall o :: o in s'.peers ==> s'.peers[o].transports == if o in s.peers then s.peers[o].transports else []
    ensures TransportsOk(s')
  {
  }

  lemma ProducersFrame(s: Sfu, s': Sfu)
    requires ProducersOk(s) && Extends(s, s') && s'.media.producers == s.media.producers
    requires forall o :: o in s'.peers ==> s'.peers[o].producers == if o in s.peers then s.peers[o].producers else []
    requires forall o, t :: o in s.peers && t in s.peers[o].transports ==> t in s'.peers[o].transports
    ensures ProducersOk(s')
  {
  }

  lemma ConsumersFrame(s: Sfu, s': Sfu)
    requires ConsumersOk(s) && Extends(s, s')
    requires s'.media.consumers == s.media.consumers && s'.media.closing == s.media.closing
    requires forall o :: o in s'.peers ==> s'.peers[o].consumers == if o in s.peers then s.peers[o].consumers else []
    requires forall o, t :: o in s.peers && t in s.peers[o].transports ==> t in s'.peers[o].transports
    ensures ConsumersOk(s')
  {
  }

  lemma TransportAdded(s: Sfu, s': Sfu, o: Owner, id: Id, x: Transport)
    requires TransportsOk(s) && o in s.peers && o.call in s.calls && id !in s.media.transports
    requires s'.peers == s.peers[o := s.peers[o].(transports := s.peers[o].transports + [id])]
    requires s'.calls == s.calls && s'.media.transports == s.media.transports[id := x]
    requires x.owner == o && x.router == s.calls[o.call].router
    ensures TransportsOk(s')
  {
  }

  lemma ProducerAdded(s: Sfu, s': Sfu, o: Owner, id: Id, x: Producer)
    requires ProducersOk(s) && o in s.peers && id !in s.media.producers
    requires s'.peers == s.peers[o := s.peers[o].(producers := s.peers[o].producers + [id])]
    requires s'.media.producers == s.media.producers[id := x]
    requires x.owner == o && x.transport in s.peers[o].transports
    ensures ProducersOk(s')
  {
  }

  lemma ConsumerAdded(s: Sfu, s': Sfu, o: Owner, id: Id, x: Consumer)
    requires ConsumersOk(s) && o in s.peers && id !in s.media.consumers
    requires s'.peers == s.peers[o := s.peers[o].(consumers := s.peers[o].consumers + [id])]
    requires s'.media.consumers == s.media.consumers[id := x] && s'.media.closing == s.media.closing
    requires x.owner == o && x.transport in s.peers[o].transports
    ensures ConsumersOk(s')
  {
  }

  lemma FindRecvIsEarliest(m: Media, ts: seq<Id>)
    requires Increasing(ts)
    ensures FindRecv(m, ts).Some? ==> EarliestRecv(m, ts, FindRecv(m, ts).value)
  {
    if ts != [] && !(ts[0] in m.transports && m.transports[ts[0]].direction.Recv?) {
      FindRecvIsEarliest(m, ts[1..]);
      assert ts == [ts[0]] + ts[1..];
    }
  }

  /** What lives on a peer's transports is what the peer owns. */
  lemma OnOwnTransports(s: Sfu, o: Owner)
    requires TransportsOk(s) && ProducersOk(s) && ConsumersOk(s) && o in s.peers
    ensures forall p :: p in s.media.producers ==>
      (s.media.producers[p].transport in s.peers[o].transports <==> s.media.producers[p].owner == o)
    ensures forall c :: c in s.media.consumers ==>
      (s.media.consumers[c].transport in s.peers[o].transports <==> s.media.consumers[c].owner == o)
  {
    forall p | p in s.media.producers
      ensures s.media.producers[p].transport in s.peers[o].transports <==> s.media.producers[p].owner == o
    {
      assert s.media.transports[s.media.producers[p].transport].owner == s.media.producers[p].owner;
    }
    forall c | c in s.media.consumers
      ensures s.media.consumers[c].transport in s.peers[o].transports <==> s.media.consumers[c].owner == o
    {
      assert s.media.transports[s.media.consumers[c].transport].owner == s.media.consumers[c].owner;
    }
  }

  lemma CreateTransportLists(s: Sfu, o: Owner, direction: Direction)
    requires PeersOk(s) && TransportsOk(s) && ProducersOk(s) && ConsumersOk(s) && IdsOk(s)
    requires CreateTransport(s, o, direction).Ok?
    ensures var s' := CreateTransport(s, o, direction).value;
      TransportsOk(s') && ProducersOk(s') && ConsumersOk(s')
  {
    var s' := CreateTransport(s, o, direction).value;
    TransportAdded(s, s', o, s.media.nextId, s'.media.transports[s.media.nextId]);
    ProducersFrame(s, s');
    ConsumersFrame(s, s');
  }

  lemma CreateTransportGraph(s: Sfu, o: Owner, direction: Direction)
    requires PeersOk(s) && RoutersOk(s) && NoEmptyCall(s) && TransportsOk(s) && IdsOk(s)
    requires CreateTransport(s, o, direction).Ok?
    ensures var s' := CreateTransport(s, o, direction).value;
      PeersOk(s') && RoutersOk(s') && NoEmptyCall(s') && IdsOk(s')
  {
    assert forall i :: 0 <= i < |s.peers[o].transports| ==> s.peers[o].transports[i] in s.peers[o].transports;
  }

  lemma CreateTransportLinks(s: Sfu, o: Owner, direction: Direction)
    requires SourcesOk(s) && CreateTransport(s, o, direction).Ok?
    ensures SourcesOk(CreateTransport(s, o, direction).value)
  {
  }

  /** A newer recv transport is not the earliest one. */
  lemma CreateTransportPaths(s: Sfu, o: Owner, direction: Direction)
    requires TransportsOk(s) && SingleReceivePath(s) && IdsOk(s) && CreateTransport(s, o, direction).Ok?
    ensures SingleReceivePath(CreateTransport(s, o, direction).value)
  {
  }

  lemma CreateTransportKeeps(s: Sfu, o: Owner, direction: Direction)
    requires Inv(s) && CreateTransport(s, o, direction).Ok?
    ensures Inv(CreateTransport(s, o, direction).value)
  {
    CreateTransportLists(s, o, direction);
    CreateTransportGraph(s, o, direction);
    CreateTransportLinks(s, o, direction);
    CreateTransportPaths(s, o, direction);
  }

  lemma ProduceLists(s: Sfu, o: Owner, transport: Id, kind: Kind)
    requires PeersOk(s) && TransportsOk(s) && ProducersOk(s) && ConsumersOk(s) && IdsOk(s)
    requires Produce(s, o, transport, kind).Ok?
    ensures var s' := Produce(s, o, transport, kind).value;
      TransportsOk(s') && ProducersOk(s') && ConsumersOk(s')
  {
    var s' := Produce(s, o, transport, kind).value;
    TransportsFrame(s, s');
    ProducerAdded(s, s', o, s.media.nextId, s'.media.producers[s.media.nextId]);
    ConsumersFrame(s, s');
  }

  lemma ProduceGraph(s: Sfu, o: Owner, transport: Id, kind: Kind)
    requires PeersOk(s) && RoutersOk(s) && NoEmptyCall(s) && TransportsOk(s) && IdsOk(s)
    requires Produce(s, o, transport, kind).Ok?
    ensures var s' := Produce(s, o, transport, kind).value;
      PeersOk(s') && RoutersOk(s') && NoEmptyCall(s') && IdsOk(s')
  {
  }

  lemma ProduceLinks(s: Sfu, o: Owner, transport: Id, kind: Kind)
    requires PeersOk(s) && RoutersOk(s) && TransportsOk(s) && ProducersOk(s) && SourcesOk(s) && SingleReceivePath(s) && IdsOk(s)
    requires Produce(s, o, transport, kind).Ok?
    ensures SourcesOk(Produce(s, o, transport, kind).value) && SingleReceivePath(Produce(s, o, transport, kind).value)
  {
  }

  lemma ProduceKeeps(s: Sfu, o: Owner, transport: Id, kind: Kind)
    requires Inv(s) && Produce(s, o, transport, kind).Ok?
    ensures Inv(Produce(s, o, transport, kind).value)
  {
    ProduceLists(s, o, transport, kind);
    ProduceGraph(s, o, transport, kind);
    ProduceLinks(s, o, transport, kind);
  }

  lemma ConsumeLists(s: Sfu, o: Owner, producer: Id, compatible: bool)
    requires PeersOk(s) && TransportsOk(s) && ProducersOk(s) && ConsumersOk(s) && IdsOk(s)
    requires Consume(s, o, producer, compatible).Ok?
    ensures var s' := Consume(s, o, producer, compatible).value;
      TransportsOk(s') && ProducersOk(s') && ConsumersOk(s')
  {
    var s' := Consume(s, o, producer, compatible).value;
    TransportsFrame(s, s');
    ProducersFrame(s, s');
    ConsumerAdded(s, s', o, s.media.nextId, s'.media.consumers[s.media.nextId]);
  }

  lemma ConsumeGraph(s: Sfu, o: Owner, producer: Id, compatible: bool)
    requires PeersOk(s) && RoutersOk(s) && NoEmptyCall(s) && TransportsOk(s) && IdsOk(s)
    requires Consume(s, o, producer, compatible).Ok?
    ensures var s' := Consume(s, o, producer, compatible).value;
      PeersOk(s') && RoutersOk(s') && NoEmptyCall(s') && IdsOk(s')
  {
  }

  lemma ConsumeLinks(s: Sfu, o: Owner, producer: Id, compatible: bool)
    requires PeersOk(s) && RoutersOk(s) && TransportsOk(s) && ProducersOk(s) && SourcesOk(s) && SingleReceivePath(s) && IdsOk(s)
    requires Consume(s, o, producer, compatible).Ok?
    ensures var s' := Consume(s, o, producer, compatible).value;
      SourcesOk(s') && SingleReceivePath(s')
  {
    FindRecvIsEarliest(s.media, s.peers[o].transports);
    assert s.media.transports[s.media.producers[producer].transport].owner == s.media.producers[producer].owner;
  }

  lemma ConsumeKeeps(s: Sfu, o: Owner, producer: Id, compatible: bool)
    requires Inv(s) && Consume(s, o, producer, compatible).Ok?
    ensures Inv(Consume(s, o, producer, compatible).value)
  {
    ConsumeLists(s, o, producer, compatible);
    ConsumeGraph(s, o, producer, compatible);
    ConsumeLinks(s, o, producer, compatible);
  }

  lemma ResumeConsumerLists(s: Sfu, o: Owner, consumer: Id)
    requires PeersOk(s) && TransportsOk(s) && ProducersOk(s) && ConsumersOk(s) && IdsOk(s)
    requires ResumeConsumer(s, o, consumer).Ok?
    ensures var s' := ResumeConsumer(s, o, consumer).value;
      TransportsOk(s') && ProducersOk(s') && ConsumersOk(s')
  {
    var s' := ResumeConsumer(s, o, consumer).value;
    TransportsFrame(s, s');
    ProducersFrame(s, s');
  }

  lemma ResumeConsumerGraph(s: Sfu, o: Owner, consumer: Id)
    requires PeersOk(s) && RoutersOk(s) && NoEmptyCall(s) && TransportsOk(s) && IdsOk(s)
    requires ResumeConsumer(s, o, consumer).Ok?
    ensures var s' := ResumeConsumer(s, o, consumer).value;
      PeersOk(s') && RoutersOk(s') && NoEmptyCall(s') && IdsOk(s')
  {
  }

  lemma ResumeConsumerLinks(s: Sfu, o: Owner, consumer: Id)
    requires PeersOk(s) && RoutersOk(s) && TransportsOk(s) && ProducersOk(s) && SourcesOk(s) && SingleReceivePath(s) && IdsOk(s)
    requires ResumeConsumer(s, o, consumer).Ok?
    ensures SourcesOk(ResumeConsumer(s, o, consumer).value) && SingleReceivePath(ResumeConsumer(s, o, consumer).value)
  {
  }

  lemma ResumeConsumerKeeps(s: Sfu, o: Owner, consumer: Id)
    requires Inv(s) && ResumeConsumer(s, o, consumer).Ok?
    ensures Inv(ResumeConsumer(s, o, consumer).value)
  {
    ResumeConsumerLists(s, o, consumer);
    ResumeConsumerGraph(s, o, consumer);
    ResumeConsumerLinks(s, o, consumer);
  }

  lemma RemovePeerTransports(s: Sfu, o: Owner)
    requires PeersOk(s) && TransportsOk(s)
    ensures TransportsOk(RemovePeer(s, o))
  {
  }

  lemma RemovePeerProducers(s: Sfu, o: Owner)
    requires PeersOk(s) && TransportsOk(s) && ProducersOk(s) && ConsumersOk(s)
    ensures ProducersOk(RemovePeer(s, o))
  {
    if o in s.peers {
      OnOwnTransports(s, o);
    }
  }

  lemma RemovePeerConsumers(s: Sfu, o: Owner)
    requires PeersOk(s) && TransportsOk(s) && ProducersOk(s) && ConsumersOk(s)
    ensures ConsumersOk(RemovePeer(s, o))
  {
    if o in s.peers {
      OnOwnTransports(s, o);
    }
  }

  lemma RemovePeerGraph(s: Sfu, o: Owner)
    requires PeersOk(s) && RoutersOk(s) && NoEmptyCall(s) && TransportsOk(s) && IdsOk(s)
    ensures PeersOk(RemovePeer(s, o)) && RoutersOk(RemovePeer(s, o)) && NoEmptyCall(RemovePeer(s, o)) && IdsOk(RemovePeer(s, o))
  {
  }

  lemma RemovePeerLinks(s: Sfu, o: Owner)
    requires PeersOk(s) && RoutersOk(s) && TransportsOk(s) && ProducersOk(s) && SourcesOk(s) && SingleReceivePath(s)
    requires IdsOk(s)
    ensures SourcesOk(RemovePeer(s, o)) && SingleReceivePath(RemovePeer(s, o))
  {
  }

  lemma RemovePeerKeeps(s: Sfu, o: Owner)
    requires Inv(s)
    ensures Inv(RemovePeer(s, o))
  {
    RemovePeerTransports(s, o);
    RemovePeerProducers(s, o);
    RemovePeerConsumers(s, o);
    RemovePeerGraph(s, o);
    RemovePeerLinks(s, o);
  }

  lemma GetOrCreateCallGraph(s: Sfu, call: CallId)
    requires PeersOk(s) && RoutersOk(s) && IdsOk(s) && GetOrCreateCall(s, call).Ok?
    ensures var s' := GetOrCreateCall(s, call).value;
      PeersOk(s') && RoutersOk(s') && IdsOk(s') && call in s'.calls
  {
  }

  lemma GetOrCreateCallLists(s: Sfu, call: CallId)
    requires TransportsOk(s) && ProducersOk(s) && ConsumersOk(s) && SourcesOk(s) && SingleReceivePath(s)
    requires GetOrCreateCall(s, call).Ok?
    ensures var s' := GetOrCreateCall(s, call).value;
      TransportsOk(s') && ProducersOk(s') && ConsumersOk(s') && SourcesOk(s') && SingleReceivePath(s')
  {
    var s' := GetOrCreateCall(s, call).value;
    TransportsFrame(s, s');
    ProducersFrame(s, s');
    ConsumersFrame(s, s');
  }

  lemma AddPeerGraph(s: Sfu, o: Owner, user: UserId)
    requires PeersOk(s) && RoutersOk(s) && IdsOk(s) && o.call in s.calls
    ensures var s' := AddPeer(s, o, user); PeersOk(s') && RoutersOk(s') && IdsOk(s')
    ensures o in AddPeer(s, o, user).peers
  {
  }

  lemma NoEmptyCallAfterJoin(s: Sfu, o: Owner, user: UserId)
    requires PeersOk(s) && NoEmptyCall(s) && GetRtpCapabilities(s, o, user).Ok?
    ensures NoEmptyCall(GetRtpCapabilities(s, o, user).value)
  {
  }

  lemma AddPeerLists(s: Sfu, o: Owner, user: UserId)
    requires TransportsOk(s) && ProducersOk(s) && ConsumersOk(s) && SourcesOk(s) && SingleReceivePath(s)
    ensures var s' := AddPeer(s, o, user);
      TransportsOk(s') && ProducersOk(s') && ConsumersOk(s') && SourcesOk(s') && SingleReceivePath(s')
  {
    var s' := AddPeer(s, o, user);
    TransportsFrame(s, s');
    ProducersFrame(s, s');
    ConsumersFrame(s, s');
  }

  lemma GetRtpCapabilitiesKeeps(s: Sfu, o: Owner, user: UserId)
    requires Inv(s) && GetRtpCapabilities(s, o, user).Ok?
    ensures Inv(GetRtpCapabilities(s, o, user).value)
  {
    var s' := GetOrCreateCall(s, o.call).value;
    GetOrCreateCallGraph(s, o.call);
    GetOrCreateCallLists(s, o.call);
    AddPeerGraph(s', o, user);
    AddPeerLists(s', o, user);
    NoEmptyCallAfterJoin(s, o, user);
  }

  lemma ConsumerDropped(s: Sfu, consumer: Id)
    requires ConsumersOk(s)
    ensures ConsumersOk(DeliverProducerClose(s, consumer))
  {
  }

  lemma DeliverProducerCloseLists(s: Sfu, consumer: Id)
    requires TransportsOk(s) && ProducersOk(s)
    ensures TransportsOk(DeliverProducerClose(s, consumer)) && ProducersOk(DeliverProducerClose(s, consumer))
  {
    var s' := DeliverProducerClose(s, consumer);
    TransportsFrame(s, s');
    ProducersFrame(s, s');
  }

  lemma DeliverProducerCloseRest(s: Sfu, consumer: Id)
    requires PeersOk(s) && RoutersOk(s) && NoEmptyCall(s) && SourcesOk(s) && SingleReceivePath(s) && IdsOk(s)
    ensures var s' := DeliverProducerClose(s, consumer);
      PeersOk(s') && RoutersOk(s') && NoEmptyCall(s') && SourcesOk(s') && SingleReceivePath(s') && IdsOk(s')
  {
  }

  lemma DeliverProducerCloseKeeps(s: Sfu, consumer: Id)
    requires Inv(s)
    ensures Inv(DeliverProducerClose(s, consumer))
  {
    ConsumerDropped(s, consumer);
    DeliverProducerCloseLists(s, consumer);
    DeliverProducerCloseRest(s, consumer);
  }
}
