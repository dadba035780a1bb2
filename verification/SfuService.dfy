/** `sfuService.js` in its own form: calls and peers are objects that the service updates in place. */
module SfuService {
  import opened Ids
  import opened JsMaps
  import opened SfuModel

  class Peer {
    const socketId: SocketId
    const userId: UserId
    ghost const owner: Owner
    var transports: seq<Id>
    var producers: seq<Id>
    var consumers: seq<Id>

    constructor (socketId: SocketId, userId: UserId, ghost owner: Owner)
      ensures this.socketId == socketId && this.owner == owner && View() == PeerState(userId, [], [], [])
    {
      this.socketId, this.userId, this.owner := socketId, userId, owner;
      transports, producers, consumers := [], [], [];
    }

    ghost function View(): PeerState
      reads this
    {
      PeerState(userId, transports, producers, consumers)
    }
  }

  class Call {
    const router: Id
    ghost const callId: CallId
    var peers: JsMap<SocketId, Peer>

    constructor (router: Id, ghost callId: CallId)
      ensures this.router == router && this.callId == callId && peers == EmptyMap()
    {
      this.router, this.callId := router, callId;
      peers := EmptyMap();
    }
  }

  /** What mediasoup has open. */
  class Mediasoup {
    var m: Media

    constructor ()
      ensures m == Media(map[], map[], map[], map[], {}, 0)
    {
      m := Media(map[], map[], map[], map[], {}, 0);
    }
  }

  class SfuService {
    var workers: seq<nat>
    var nextWorkerIndex: nat
    var calls: map<CallId, Call>
    const mediasoup: Mediasoup
    ghost var peerAt: map<Owner, Peer>  // all the calls' peers together
    ghost var Repr: set<object>

    /** Every call and peer object is in one place only. */
    ghost predicate Valid()
      reads this, Repr
    {
      this in Repr && mediasoup in Repr &&
      (forall c :: c in calls ==> calls[c] in Repr && calls[c].callId == c) &&
      (forall o :: o in peerAt <==> o.call in calls && o.socket in calls[o.call].peers.vals) &&
      (forall o :: o in peerAt ==>
         peerAt[o] == calls[o.call].peers.vals[o.socket] && peerAt[o] in Repr &&
         peerAt[o].owner == o && peerAt[o].socketId == o.socket)
    }

    ghost function CallStates(): map<CallId, CallState>
      reads this`calls, set c | c in calls :: calls[c]
    {
      map c | c in calls :: CallState(calls[c].router, calls[c].peers.keys)
    }

    ghost function PeerStates(): map<Owner, PeerState>
      reads this`peerAt, set o | o in peerAt :: peerAt[o]
    {
      map o | o in peerAt :: peerAt[o].View()
    }

    ghost function View(): Sfu
      requires Valid()
      reads this, Repr
    {
      Sfu(workers, nextWorkerIndex, CallStates(), PeerStates(), mediasoup.m)
    }

    constructor ()
      ensures Valid() && fresh(Repr)
      ensures View() == Sfu([], 0, map[], map[], Media(map[], map[], map[], map[], {}, 0))
    {
      workers, nextWorkerIndex, calls := [], 0, map[];
      peerAt := map[];
      mediasoup := new Mediasoup();
      new;
      Repr := {this, mediasoup};
    }

    /** Starts at least one worker, or none when mediasoup is not installed. */
    method Init(installed: bool, numWorkers: int)
      requires Valid() && workers == []
      modifies this`workers
      ensures Valid() && View() == old(View()).(workers := workers)
      ensures |workers| == if !installed then 0 else if numWorkers < 1 then 1 else numWorkers
      ensures Distinct(workers)
    {
      if !installed {
        return;
      }
      var count := if numWorkers < 1 then 1 else numWorkers;
      var i := 0;
      while i < count
        invariant 0 <= i <= count && |workers| == i
        invariant forall j :: 0 <= j < i ==> workers[j] == j
      {
        workers := workers + [i];
        i := i + 1;
      }
    }

    // ---- frames ----

    twostate lemma SameCalls()
      requires calls == old(calls) && forall c :: c in calls ==> unchanged(calls[c])
      ensures CallStates() == old(CallStates())
    {
      assert forall c :: c in calls ==> calls[c].peers == old(calls[c].peers);
    }

    twostate lemma SamePeersBut(o: Owner)
      requires peerAt == old(peerAt) && forall q :: q in peerAt && q != o ==> unchanged(peerAt[q])
      ensures PeerStates() == if o in peerAt then old(PeerStates())[o := peerAt[o].View()] else old(PeerStates())
    {
    }

    twostate lemma OneMorePeer(o: Owner, new peer: Peer)
      requires o !in old(peerAt) && peerAt == old(peerAt)[o := peer]
      requires forall q :: q in old(peerAt) ==> unchanged(old(peerAt[q]))
      ensures PeerStates() == old(PeerStates())[o := peer.View()]
    {
      assert forall q :: q in old(peerAt) ==> peerAt[q] == old(peerAt[q]);
    }

    twostate lemma OneMoreCall(callId: CallId, new call: Call)
      requires callId !in old(calls) && calls == old(calls)[callId := call]
      requires forall c :: c in old(calls) ==> unchanged(old(calls[c]))
      ensures CallStates() == old(CallStates())[callId := CallState(call.router, call.peers.keys)]
    {
      assert forall c :: c in old(calls) ==> calls[c] == old(calls[c]) && calls[c].peers == old(calls[c].peers);
    }

    twostate lemma OneCallChanged(callId: CallId)
      requires callId in calls && calls == old(calls) && forall c :: c in calls && c != callId ==> unchanged(calls[c])
      ensures CallStates() == old(CallStates())[callId := CallState(calls[callId].router, calls[callId].peers.keys)]
    {
      assert forall c :: c in calls && c != callId ==> calls[c].peers == old(calls[c].peers);
    }

    /** At most the peer object at `o` and mediasoup were changed. */
    twostate predicate OnlyPeerChanged(o: Owner)
      requires old(Valid())
      reads this, Repr
    {
      unchanged(this) && (forall c :: c in calls ==> unchanged(calls[c])) &&
      (forall q :: q in peerAt && q != o ==> unchanged(peerAt[q]))
    }

    twostate lemma OnePeerKeepsValid(o: Owner)
      requires old(Valid()) && OnlyPeerChanged(o)
      ensures Valid()
    {
    }

    twostate lemma OnePeerView(o: Owner)
      requires old(Valid()) && Valid() && OnlyPeerChanged(o)
      ensures View() == old(View()).(
        peers := if o in peerAt then old(View()).peers[o := peerAt[o].View()] else old(View()).peers,
        media := mediasoup.m)
    {
      SameCalls();
      SamePeersBut(o);
    }

    /** A new call object was entered; otherwise only counters and mediasoup were changed. */
    twostate predicate OnlyCallEntered(callId: CallId, new call: Call)
      reads this, call, Repr
      requires old(Valid())
    {
      callId !in old(calls) && fresh(call) && call.callId == callId && call.peers == EmptyMap() &&
      calls == old(calls)[callId := call] && Repr == old(Repr) + {call} && peerAt == old(peerAt) &&
      (forall c :: c in old(calls) ==> unchanged(old(calls[c]))) &&
      (forall o :: o in old(peerAt) ==> unchanged(old(peerAt[o])))
    }

    twostate lemma CallEnteredKeepsValid(callId: CallId, new call: Call)
      requires old(Valid()) && OnlyCallEntered(callId, call)
      ensures Valid()
    {
    }

    twostate lemma CallEnteredView(callId: CallId, new call: Call)
      requires old(Valid()) && OnlyCallEntered(callId, call) && Valid() && old(nextWorkerIndex) < |workers|
      requires workers == old(workers) && nextWorkerIndex == (old(nextWorkerIndex) + 1) % |workers|
      requires call.router == old(mediasoup.m.nextId)
      requires var m := old(mediasoup.m);
        mediasoup.m == m.(routers := m.routers[m.nextId := Router(callId, workers[old(nextWorkerIndex)])], nextId := m.nextId + 1)
      ensures Ok(View()) == SfuModel.GetOrCreateCall(old(View()), callId)
    {
      OneMoreCall(callId, call);
      SamePeersBut(Owner(callId, 0));
    }

    /** A new peer object was entered into a call. */
    twostate predicate OnlyPeerEntered(o: Owner, new peer: Peer)
      reads this, peer, Repr
      requires old(Valid())
    {
      o.call in calls && o !in old(peerAt) && fresh(peer) && peer.owner == o && peer.socketId == o.socket &&
      calls == old(calls) && Repr == old(Repr) + {peer} && peerAt == old(peerAt)[o := peer] &&
      calls[o.call].peers == Put(old(calls[o.call].peers), o.socket, peer) &&
      (forall c :: c in calls && c != o.call ==> unchanged(calls[c])) &&
      (forall q :: q in old(peerAt) ==> unchanged(old(peerAt[q])))
    }

    twostate lemma PeerEnteredKeepsValid(o: Owner, new peer: Peer)
      requires old(Valid()) && OnlyPeerEntered(o, peer)
      ensures Valid()
    {
    }

    twostate lemma PeerEnteredView(o: Owner, new peer: Peer)
      requires old(Valid()) && OnlyPeerEntered(o, peer) && Valid()
      requires workers == old(workers) && nextWorkerIndex == old(nextWorkerIndex) && unchanged(mediasoup)
      requires peer.View() == PeerState(peer.userId, [], [], [])
      ensures View() == SfuModel.AddPeer(old(View()), o, peer.userId)
    {
      OneCallChanged(o.call);
      OneMorePeer(o, peer);
    }

    // ---- operations ----

    method NextWorker() returns (worker: nat)
      requires nextWorkerIndex < |workers|
      modifies this`nextWorkerIndex
      ensures worker == workers[old(nextWorkerIndex)]
      ensures nextWorkerIndex == (old(nextWorkerIndex) + 1) % |workers|
    {
      worker := workers[nextWorkerIndex];
      nextWorkerIndex := (nextWorkerIndex + 1) % |workers|;
    }

    method GetOrCreateCall(callId: CallId) returns (r: Result<Call>)
      requires Valid() && (|workers| > 0 ==> nextWorkerIndex < |workers|)
      modifies this, mediasoup
      ensures Valid() && fresh(Repr - old(Repr))
      ensures var spec := SfuModel.GetOrCreateCall(old(View()), callId);
        (r.Ok? <==> spec.Ok?) && View() == if r.Ok? then spec.value else old(View())
      ensures r.Ok? ==> callId in calls && calls[callId] == r.value
    {
      if |workers| == 0 {
        return Err;
      }
      if callId in calls {
        return Ok(calls[callId]);
      }
      var call := CreateCall(callId);
      return Ok(call);
    }

    method CreateCall(callId: CallId) returns (call: Call)
      requires Valid() && nextWorkerIndex < |workers| && callId !in calls
      modifies this, mediasoup
      ensures Valid() && fresh(Repr - old(Repr))
      ensures Ok(View()) == SfuModel.GetOrCreateCall(old(View()), callId)
      ensures callId in calls && calls[callId] == call
    {
      var worker := NextWorker();
      var router := mediasoup.m.nextId;
      mediasoup.m := mediasoup.m.(routers := mediasoup.m.routers[router := Router(callId, worker)], nextId := router + 1);
      call := new Call(router, callId);
      calls := calls[callId := call];
      Repr := Repr + {call};
      CallEnteredKeepsValid(callId, call);
      CallEnteredView(callId, call);
    }

    method GetRtpCapabilities(callId: CallId, socketId: SocketId, userId: UserId) returns (r: Result<Id>)
      requires Valid() && (|workers| > 0 ==> nextWorkerIndex < |workers|)
      modifies Repr
      ensures Valid() && fresh(Repr - old(Repr))
      ensures var spec := SfuModel.GetRtpCapabilities(old(View()), Owner(callId, socketId), userId);
        (r.Ok? <==> spec.Ok?) && View() == if r.Ok? then spec.value else old(View())
      ensures r.Ok? ==> callId in View().calls && r.value == View().calls[callId].router
    {
      var got := GetOrCreateCall(callId);
      if got.Err? {
        return Err;
      }
      var call := got.value;
      if socketId !in call.peers.vals {
        AddPeer(call, callId, socketId, userId);
      }
      return Ok(call.router);
    }

    method AddPeer(call: Call, callId: CallId, socketId: SocketId, userId: UserId)
      requires Valid() && callId in calls && calls[callId] == call && socketId !in call.peers.vals
      modifies this, call
      ensures Valid() && fresh(Repr - old(Repr))
      ensures View() == SfuModel.AddPeer(old(View()), Owner(callId, socketId), userId)
    {
      var peer := new Peer(socketId, userId, Owner(callId, socketId));
      call.peers := Put(call.peers, socketId, peer);
      peerAt := peerAt[Owner(callId, socketId) := peer];
      Repr := Repr + {peer};
      PeerEnteredKeepsValid(Owner(callId, socketId), peer);
      PeerEnteredView(Owner(callId, socketId), peer);
    }

    method CreateTransport(o: Owner, direction: Direction) returns (r: Result<Id>)
      requires Valid()
      modifies Repr
      ensures Valid() && Repr == old(Repr)
      ensures var spec := SfuModel.CreateTransport(old(View()), o, direction);
        (r.Ok? <==> spec.Ok?) && View() == if r.Ok? then spec.value else old(View())
      ensures r.Ok? ==> r.value == old(View()).media.nextId
    {
      if o.call !in calls || o.socket !in calls[o.call].peers.vals {
        return Err;
      }
      var call := calls[o.call];
      var peer := call.peers.vals[o.socket];
      assert peer == peerAt[o];
      assert View().calls[o.call].router == call.router && View().peers[o] == peer.View();
      var id := AddTransport(o, peer, Transport(o, call.router, direction));
      return Ok(id);
    }

    /** Opens the transport and enters it in the peer's map. */
    method AddTransport(o: Owner, peer: Peer, transport: Transport) returns (id: Id)
      requires Valid() && o in peerAt && peerAt[o] == peer
      modifies mediasoup, peer
      ensures Valid() && Repr == old(Repr) && id == old(mediasoup.m.nextId)
      ensures var m, p := old(mediasoup.m), old(peer.View());
        View() == old(View()).(
          media := m.(transports := m.transports[id := transport], nextId := id + 1),
          peers := old(View()).peers[o := p.(transports := p.transports + [id])])
    {
      id := mediasoup.m.nextId;
      mediasoup.m := mediasoup.m.(transports := mediasoup.m.transports[id := transport], nextId := id + 1);
      peer.transports := peer.transports + [id];
      OnePeerKeepsValid(o);
      OnePeerView(o);
    }

    method Produce(o: Owner, transportId: Id, kind: Kind) returns (r: Result<Id>)
      requires Valid()
      modifies Repr
      ensures Valid() && Repr == old(Repr)
      ensures var spec := SfuModel.Produce(old(View()), o, transportId, kind);
        (r.Ok? <==> spec.Ok?) && View() == if r.Ok? then spec.value else old(View())
      ensures r.Ok? ==> r.value == old(View()).media.nextId
    {
      if o.call !in calls || o.socket !in calls[o.call].peers.vals {
        return Err;
      }
      var peer := calls[o.call].peers.vals[o.socket];
      assert peer == peerAt[o];
      assert View().peers[o] == peer.View();
      if transportId !in peer.transports {
        return Err;
      }
      var id := AddProducer(o, peer, Producer(o, transportId, kind));
      return Ok(id);
    }

    /** Opens the producer and enters it in the peer's map. */
    method AddProducer(o: Owner, peer: Peer, producer: Producer) returns (id: Id)
      requires Valid() && o in peerAt && peerAt[o] == peer
      modifies mediasoup, peer
      ensures Valid() && Repr == old(Repr) && id == old(mediasoup.m.nextId)
      ensures var m, p := old(mediasoup.m), old(peer.View());
        View() == old(View()).(
          media := m.(producers := m.producers[id := producer], nextId := id + 1),
          peers := old(View()).peers[o := p.(producers := p.producers + [id])])
    {
      id := mediasoup.m.nextId;
      mediasoup.m := mediasoup.m.(producers := mediasoup.m.producers[id := producer], nextId := id + 1);
      peer.producers := peer.producers + [id];
      OnePeerKeepsValid(o);
      OnePeerView(o);
    }

    /** The first transport, in insertion order, made to receive. */
    method FindRecvTransport(peer: Peer) returns (r: Option<Id>)
      ensures r == FindRecv(mediasoup.m, peer.transports)
    {
      var ts := peer.transports;
      var i := 0;
      while i < |ts|
        invariant i <= |ts| && FindRecv(mediasoup.m, ts) == FindRecv(mediasoup.m, ts[i..])
      {
        if ts[i] in mediasoup.m.transports && mediasoup.m.transports[ts[i]].direction.Recv? {
          return Some(ts[i]);
        }
        i := i + 1;
      }
      return None;
    }

    method Consume(o: Owner, producerId: Id, compatible: bool) returns (r: Result<Id>)
      requires Valid()
      modifies Repr
      ensures Valid() && Repr == old(Repr)
      ensures var spec := SfuModel.Consume(old(View()), o, producerId, compatible);
        (r.Ok? <==> spec.Ok?) && View() == if r.Ok? then spec.value else old(View())
      ensures r.Ok? ==> r.value == old(View()).media.nextId
    {
      if o.call !in calls || o.socket !in calls[o.call].peers.vals {
        return Err;
      }
      var peer := calls[o.call].peers.vals[o.socket];
      assert peer == peerAt[o];
      assert View().calls[o.call].router == calls[o.call].router && View().peers[o] == peer.View();
      if !CanConsume(mediasoup.m, calls[o.call].router, producerId, compatible) {
        return Err;
      }
      var recv := FindRecvTransport(peer);
      if recv.None? {
        return Err;
      }
      var id := AddConsumer(o, peer, recv.value, producerId);
      return Ok(id);
    }

    /** Opens a paused consumer on the transport and enters it in the peer's map. */
    method AddConsumer(o: Owner, peer: Peer, recv: Id, producerId: Id) returns (id: Id)
      requires Valid() && o in peerAt && peerAt[o] == peer
      modifies mediasoup, peer
      ensures Valid() && Repr == old(Repr) && id == old(mediasoup.m.nextId)
      ensures var m, p := old(mediasoup.m), old(peer.View());
        View() == old(View()).(
          media := m.(consumers := m.consumers[id := Consumer(o, recv, producerId, true)], nextId := id + 1),
          peers := old(View()).peers[o := p.(consumers := p.consumers + [id])])
    {
      id := mediasoup.m.nextId;
      mediasoup.m := mediasoup.m.(consumers := mediasoup.m.consumers[id := Consumer(o, recv, producerId, true)], nextId := id + 1);
      peer.consumers := peer.consumers + [id];
      OnePeerKeepsValid(o);
      OnePeerView(o);
    }

    method ResumeConsumer(o: Owner, consumerId: Id) returns (r: Result<()>)
      requires Valid() && ConsumersOk(View())
      modifies mediasoup
      ensures Valid()
      ensures var spec := SfuModel.ResumeConsumer(old(View()), o, consumerId);
        (r.Ok? <==> spec.Ok?) && View() == if r.Ok? then spec.value else old(View())
    {
      if o.call !in calls || o.socket !in calls[o.call].peers.vals {
        return Err;
      }
      var peer := calls[o.call].peers.vals[o.socket];
      assert peer == peerAt[o];
      if consumerId !in peer.consumers {
        return Err;
      }
      assert consumerId in View().peers[o].consumers;
      Unpause(consumerId);
      return Ok(());
    }

    method Unpause(consumerId: Id)
      requires Valid() && consumerId in mediasoup.m.consumers
      modifies mediasoup
      ensures Valid()
      ensures var m := old(mediasoup.m);
        View() == old(View()).(
          media := m.(consumers := m.consumers[consumerId := m.consumers[consumerId].(paused := false)]))
    {
      var consumer := mediasoup.m.consumers[consumerId];
      mediasoup.m := mediasoup.m.(consumers := mediasoup.m.consumers[consumerId := consumer.(paused := false)]);
      OnePeerKeepsValid(consumer.owner);
      OnePeerView(consumer.owner);
    }

    method DeliverProducerClose(consumerId: Id)
      requires Valid()
      modifies Repr
      ensures Valid() && Repr == old(Repr)
      ensures View() == SfuModel.DeliverProducerClose(old(View()), consumerId)
    {
      if consumerId !in mediasoup.m.closing || consumerId !in mediasoup.m.consumers {
        return;
      }
      var o := mediasoup.m.consumers[consumerId].owner;
      mediasoup.m := mediasoup.m.(consumers := mediasoup.m.consumers - {consumerId}, closing := mediasoup.m.closing - {consumerId});
      if o.call in calls && o.socket in calls[o.call].peers.vals {
        var peer := calls[o.call].peers.vals[o.socket];
        assert peer == peerAt[o];
        peer.consumers := Without(peer.consumers, consumerId);
      }
      OnePeerKeepsValid(o);
      OnePeerView(o);
    }

    // ---- lists ----

    method ListOwnProducerIds(o: Owner) returns (ids: seq<Id>)
      requires Valid()
      ensures ids == SfuModel.ListOwnProducerIds(View(), o)
    {
      if o.call !in calls || o.socket !in calls[o.call].peers.vals {
        return [];
      }
      assert calls[o.call].peers.vals[o.socket] == peerAt[o];
      return calls[o.call].peers.vals[o.socket].producers;
    }

    method ListOtherProducers(callId: CallId, socketId: SocketId) returns (result: seq<Entry>)
      requires Valid() && ProducersOk(View())
      ensures result == SfuModel.ListOtherProducers(View(), callId, socketId)
    {
      if callId !in calls {
        return [];
      }
      var call := calls[callId];
      assert View().calls[callId].sockets == call.peers.keys;
      result := ListPeersOf(callId, call, socketId);
    }

    method ListPeersOf(callId: CallId, call: Call, socketId: SocketId) returns (result: seq<Entry>)
      requires Valid() && ProducersOk(View()) && callId in calls && calls[callId] == call
      ensures result == ListPeers(View(), callId, call.peers.keys, socketId)
    {
      ghost var s := View();
      var keys := call.peers.keys;
      result := [];
      var i := 0;
      while i < |keys|
        invariant i <= |keys|
        invariant ListPeers(s, callId, keys, socketId) == result + ListPeers(s, callId, keys[i..], socketId)
      {
        assert keys[i] in call.peers.vals && Owner(callId, keys[i]) in peerAt;
        ListPeersStep(s, callId, keys, i, socketId);
        if keys[i] != socketId {
          var entries := EntriesOfPeer(Owner(callId, keys[i]));
          result := result + entries;
        }
        i := i + 1;
      }
    }

    method EntriesOfPeer(o: Owner) returns (result: seq<Entry>)
      requires Valid() && ProducersOk(View()) && o in peerAt
      ensures result == EntriesOf(View().media, o.socket, View().peers[o], View().peers[o].producers)
    {
      var peer := calls[o.call].peers.vals[o.socket];
      assert peer == peerAt[o] && View().peers[o] == peer.View();
      result := [];
      var i := 0;
      while i < |peer.producers|
        invariant i <= |peer.producers|
        invariant EntriesOf(mediasoup.m, o.socket, peer.View(), peer.producers) ==
          result + EntriesOf(mediasoup.m, o.socket, peer.View(), peer.producers[i..])
      {
        var id := peer.producers[i];
        assert id in View().peers[o].producers;
        result := result + [Entry(id, peer.socketId, peer.userId, mediasoup.m.producers[id].kind)];
        i := i + 1;
      }
    }

    // ---- teardown ----

    /** The peer at `o` has left its call. */
    twostate predicate OnlyPeerRemoved(o: Owner)
      requires old(Valid())
      reads this, Repr
    {
      o in old(peerAt) && peerAt == old(peerAt) - {o} && Repr == old(Repr) && calls == old(calls) &&
      calls[o.call].peers == Delete(old(calls[o.call].peers), o.socket) &&
      (forall c :: c in calls && c != o.call ==> unchanged(calls[c])) &&
      (forall q :: q in peerAt ==> unchanged(peerAt[q]))
    }

    twostate lemma PeerRemovedKeepsValid(o: Owner)
      requires old(Valid()) && OnlyPeerRemoved(o)
      ensures Valid()
    {
    }

    twostate lemma OnePeerLess(o: Owner)
      requires peerAt == old(peerAt) - {o} && forall q :: q in peerAt ==> unchanged(peerAt[q])
      ensures PeerStates() == old(PeerStates()) - {o}
    {
      assert forall q :: q in peerAt ==> peerAt[q] == old(peerAt[q]);
    }

    /** An empty call is gone. */
    twostate predicate OnlyCallRemoved(callId: CallId)
      requires old(Valid())
      reads this, Repr
    {
      callId in old(calls) && old(calls[callId].peers.keys) == [] && calls == old(calls) - {callId} &&
      Repr == old(Repr) && peerAt == old(peerAt) &&
      (forall c :: c in calls ==> unchanged(calls[c])) && (forall q :: q in peerAt ==> unchanged(peerAt[q]))
    }

    twostate lemma CallRemovedKeepsValid(callId: CallId)
      requires old(Valid()) && OnlyCallRemoved(callId)
      ensures Valid()
    {
      EmptyKeys(old(calls[callId].peers));
    }

    twostate lemma CallRemovedCalls(callId: CallId)
      requires old(Valid()) && OnlyCallRemoved(callId)
      ensures CallStates() == old(CallStates()) - {callId}
    {
      assert forall c :: c in calls ==> calls[c].peers == old(calls[c].peers);
    }

    method RemovePeer(o: Owner)
      requires Valid() && ConsumersOk(View())
      modifies Repr
      ensures Valid() && Repr == old(Repr)
      ensures View() == SfuModel.RemovePeer(old(View()), o)
    {
      if o.call !in calls || o.socket !in calls[o.call].peers.vals {
        return;
      }
      ghost var s := View();
      CloseTransportsOf(o);
      ghost var closed := View();
      DropPeer(o);
      assert View() == SfuModel.DropPeer(closed, o);
      CloseThenDrop(s, closed, o);
    }

    /** Closes every transport of the peer, in insertion order. */
    method CloseTransportsOf(o: Owner)
      requires Valid() && ConsumersOk(View()) && o in peerAt
      modifies Repr
      ensures Valid() && Repr == old(Repr) && peerAt == old(peerAt)
      ensures View() == old(View()).(
        media := CloseTransports(old(mediasoup.m), Members(old(peerAt[o].transports))),
        peers := old(View()).peers[o := peerAt[o].View()])
    {
      var peer := calls[o.call].peers.vals[o.socket];
      CloseAll(peer);
      OnePeerKeepsValid(o);
      OnePeerView(o);
    }

    /** Takes the peer out of its call, and the call away with its router when that was the last peer. */
    method DropPeer(o: Owner)
      requires Valid() && o in peerAt
      modifies Repr
      ensures Valid() && Repr == old(Repr)
      ensures View() == SfuModel.DropPeer(old(View()), o)
    {
      TakeOut(o);
      assert View().calls[o.call].sockets == calls[o.call].peers.keys;
      if |calls[o.call].peers.keys| == 0 {
        CloseCall(o.call);
      }
    }

    method TakeOut(o: Owner)
      requires Valid() && o in peerAt
      modifies Repr
      ensures Valid() && Repr == old(Repr) && calls == old(calls)
      ensures View() == TakePeer(old(View()), o)
    {
      var call := calls[o.call];
      call.peers := Delete(call.peers, o.socket);
      peerAt := peerAt - {o};
      PeerRemovedKeepsValid(o);
      OneCallChanged(o.call);
      OnePeerLess(o);
    }

    method CloseCall(callId: CallId)
      requires Valid() && callId in calls && calls[callId].peers.keys == []
      modifies Repr
      ensures Valid() && Repr == old(Repr)
      ensures View() == SfuModel.CloseCall(old(View()), callId)
    {
      mediasoup.m := mediasoup.m.(routers := mediasoup.m.routers - {calls[callId].router});
      calls := calls - {callId};
      CallRemovedKeepsValid(callId);
      CallRemovedCalls(callId);
      SamePeersBut(Owner(callId, 0));
    }

    /** Closes one transport. The peer's own `transportclose` listeners run at once; `producerclose`
        reaches the other peers later. */
    method CloseTransport(peer: Peer, transport: Id)
      modifies mediasoup, peer
      ensures mediasoup.m == CloseTransports(old(mediasoup.m), {transport}) && peer.transports == old(peer.transports)
      ensures peer.producers == StillOpen(old(peer.producers), mediasoup.m.producers.Keys)
      ensures peer.consumers == StillOpen(old(peer.consumers), mediasoup.m.consumers.Keys)
    {
      mediasoup.m := CloseTransports(mediasoup.m, {transport});
      peer.producers := StillOpen(peer.producers, mediasoup.m.producers.Keys);
      peer.consumers := StillOpen(peer.consumers, mediasoup.m.consumers.Keys);
    }

    method CloseNth(peer: Peer, ts: seq<Id>, i: nat, ghost m: Media)
      requires i < |ts| && mediasoup.m == CloseTransports(m, Members(ts[..i]))
      modifies mediasoup, peer
      ensures mediasoup.m == CloseTransports(m, Members(ts[..i + 1])) && peer.transports == old(peer.transports)
      ensures peer.producers == StillOpen(old(peer.producers), mediasoup.m.producers.Keys)
      ensures peer.consumers == StillOpen(old(peer.consumers), mediasoup.m.consumers.Keys)
      ensures mediasoup.m.producers.Keys <= old(mediasoup.m.producers.Keys)
      ensures mediasoup.m.consumers.Keys <= old(mediasoup.m.consumers.Keys)
    {
      CloseOneMore(m, Members(ts[..i]), ts[i]);
      assert Members(ts[..i + 1]) == Members(ts[..i]) + {ts[i]};
      CloseTransport(peer, ts[i]);
    }

    method CloseAll(peer: Peer)
      requires mediasoup.m.closing <= mediasoup.m.consumers.Keys
      modifies mediasoup, peer
      ensures mediasoup.m == CloseTransports(old(mediasoup.m), Members(old(peer.transports)))
      ensures peer.transports == old(peer.transports)
      ensures old(peer.transports) == [] ==> peer.producers == old(peer.producers) && peer.consumers == old(peer.consumers)
      ensures old(peer.transports) != [] ==>
        peer.producers == StillOpen(old(peer.producers), mediasoup.m.producers.Keys) &&
        peer.consumers == StillOpen(old(peer.consumers), mediasoup.m.consumers.Keys)
    {
      var ts := peer.transports;
      ghost var m := mediasoup.m;
      var i := 0;
      CloseNone(m);
      while i < |ts|
        invariant i <= |ts| && mediasoup.m == CloseTransports(m, Members(ts[..i])) && peer.transports == ts
        invariant i == 0 ==> peer.producers == old(peer.producers) && peer.consumers == old(peer.consumers)
        invariant i > 0 ==> peer.producers == StillOpen(old(peer.producers), mediasoup.m.producers.Keys)
        invariant i > 0 ==> peer.consumers == StillOpen(old(peer.consumers), mediasoup.m.consumers.Keys)
      {
        ghost var before := mediasoup.m;
        CloseNth(peer, ts, i, m);
        StillOpenTwice(old(peer.producers), before.producers.Keys, mediasoup.m.producers.Keys);
        StillOpenTwice(old(peer.consumers), before.consumers.Keys, mediasoup.m.consumers.Keys);
        i := i + 1;
      }
      assert ts[..i] == ts;
    }
  }

  /** What the `transportclose` listeners leave in a peer's map. */
  function StillOpen(ids: seq<Id>, open: set<Id>): (r: seq<Id>)
    ensures forall id :: id in r <==> id in ids && id in open
  {
    if ids == [] then []
    else if ids[0] in open then [ids[0]] + StillOpen(ids[1..], open)
    else StillOpen(ids[1..], open)
  }

  lemma {:induction false} StillOpenTwice(ids: seq<Id>, open: set<Id>, later: set<Id>)
    requires later <= open
    ensures StillOpen(StillOpen(ids, open), later) == StillOpen(ids, later)
  {
    if ids != [] {
      StillOpenTwice(ids[1..], open, later);
      if ids[0] in open {
        assert ([ids[0]] + StillOpen(ids[1..], open))[1..] == StillOpen(ids[1..], open);
      }
    }
  }

  function Members(ids: seq<Id>): set<Id> {
    set t | t in ids
  }

  lemma CloseThenDrop(s: Sfu, closed: Sfu, o: Owner)
    requires o in s.peers && o.call in s.calls && closed.calls == s.calls && o in closed.peers
    requires closed == s.(media := CloseTransports(s.media, Members(s.peers[o].transports)), peers := s.peers[o := closed.peers[o]])
    ensures SfuModel.DropPeer(closed, o) == SfuModel.RemovePeer(s, o)
  {
    assert closed.peers - {o} == s.peers - {o};
    assert Members(s.peers[o].transports) == set t | t in s.peers[o].transports;
  }

  lemma ListPeersStep(s: Sfu, call: CallId, keys: seq<SocketId>, i: nat, except: SocketId)
    requires i < |keys| && Owner(call, keys[i]) in s.peers
    ensures var o := Owner(call, keys[i]);
      ListPeers(s, call, keys[i..], except) ==
        (if o.socket == except then [] else EntriesOf(s.media, o.socket, s.peers[o], s.peers[o].producers)) +
        ListPeers(s, call, keys[i + 1..], except)
  {
    assert keys[i..][0] == keys[i] && keys[i..][1..] == keys[i + 1..];
  }

  lemma CloseNone(m: Media)
    requires m.closing <= m.consumers.Keys
    ensures CloseTransports(m, {}) == m
  {
    var none := CloseTransports(m, {});
    assert none.producers == m.producers && none.consumers == m.consumers;
    assert forall c :: c in none.closing <==> c in m.closing;
  }

  /** Closing one by one is closing them all. */
  lemma CloseOneMore(m: Media, ts: set<Id>, t: Id)
    ensures CloseTransports(CloseTransports(m, ts), {t}) == CloseTransports(m, ts + {t})
  {
    var once := CloseTransports(CloseTransports(m, ts), {t});
    var both := CloseTransports(m, ts + {t});
    assert once.producers == both.producers && once.consumers == both.consumers;
    assert once.closing == both.closing;
  }
}
