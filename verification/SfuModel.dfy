/** The SFU call graph as values: what `sfuService.js` keeps, over a small model of mediasoup.

    mediasoup is the record of what is open. A handle is known by its id, so a `Map` from id to
    handle is the sequence of its ids in insertion order. Every open object carries its `owner`,
    the peer whose listeners were attached to it. `closing` holds the open consumers whose
    `producerclose` has not been delivered yet. */
module SfuModel {
  import opened Ids
  import opened JsMaps

  type CallId = RoomId  // `room:<roomId>`
  type Id = int

  datatype Direction = Send | Recv
  datatype Kind = Audio | Video
  datatype Owner = Owner(call: CallId, socket: SocketId)

  datatype Router = Router(call: CallId, worker: nat)
  datatype Transport = Transport(owner: Owner, router: Id, direction: Direction)
  datatype Producer = Producer(owner: Owner, transport: Id, kind: Kind)
  datatype Consumer = Consumer(owner: Owner, transport: Id, producer: Id, paused: bool)

  datatype Media = Media(
    routers: map<Id, Router>,
    transports: map<Id, Transport>,
    producers: map<Id, Producer>,
    consumers: map<Id, Consumer>,
    closing: set<Id>,
    nextId: Id)

  datatype PeerState = PeerState(userId: UserId, transports: seq<Id>, producers: seq<Id>, consumers: seq<Id>)
  datatype CallState = CallState(router: Id, sockets: seq<SocketId>)
  datatype Sfu = Sfu(
    workers: seq<nat>,
    nextWorkerIndex: nat,
    calls: map<CallId, CallState>,
    peers: map<Owner, PeerState>,
    media: Media)

  /** One element of the list that `listOtherProducers` returns. */
  datatype Entry = Entry(producerId: Id, socketId: SocketId, userId: UserId, kind: Kind)

  // ---- mediasoup ----

  /** Closing transports closes what lives on them. Consumers elsewhere of a producer closed
      this way stay open until their `producerclose` arrives. */
  function CloseTransports(m: Media, ts: set<Id>): Media {
    var producers := map p | p in m.producers && m.producers[p].transport !in ts :: m.producers[p];
    var consumers := map c | c in m.consumers && m.consumers[c].transport !in ts :: m.consumers[c];
    var closing := set c | c in consumers &&
                           (c in m.closing ||
                            (consumers[c].producer in m.producers &&
                             m.producers[consumers[c].producer].transport in ts)) :: c;
    Media(m.routers, m.transports - ts, producers, consumers, closing, m.nextId)
  }

  /** The first transport in insertion order whose direction is `recv`. */
  function FindRecv(m: Media, ts: seq<Id>): (r: Option<Id>)
    ensures r.Some? ==> r.value in ts && r.value in m.transports && m.transports[r.value].direction.Recv?
  {
    if ts == [] then None
    else if ts[0] in m.transports && m.transports[ts[0]].direction.Recv? then Some(ts[0])
    else FindRecv(m, ts[1..])
  }

  // ---- the service ----

  function GetOrCreateCall(s: Sfu, call: CallId): Result<Sfu> {
    if |s.workers| == 0 then Err
    else if call in s.calls then Ok(s)
    else if s.nextWorkerIndex >= |s.workers| then Err
    else
      var router := s.media.nextId;
      Ok(s.(nextWorkerIndex := (s.nextWorkerIndex + 1) % |s.workers|,
            calls := s.calls[call := CallState(router, [])],
            media := s.media.(routers := s.media.routers[router := Router(call, s.workers[s.nextWorkerIndex])],
                              nextId := router + 1)))
  }

  function AddPeer(s: Sfu, o: Owner, user: UserId): Sfu {
    if o in s.peers || o.call !in s.calls then s
    else
      var call := s.calls[o.call];
      s.(calls := s.calls[o.call := call.(sockets := call.sockets + [o.socket])],
         peers := s.peers[o := PeerState(user, [], [], [])])
  }

  function GetRtpCapabilities(s: Sfu, o: Owner, user: UserId): Result<Sfu> {
    match GetOrCreateCall(s, o.call)
    case Err => Err
    case Ok(s') => Ok(AddPeer(s', o, user))
  }

  function CreateTransport(s: Sfu, o: Owner, direction: Direction): Result<Sfu> {
    if o !in s.peers || o.call !in s.calls then Err
    else
      var peer, id := s.peers[o], s.media.nextId;
      var m := s.media.(transports := s.media.transports[id := Transport(o, s.calls[o.call].router, direction)],
                        nextId := id + 1);
      Ok(s.(peers := s.peers[o := peer.(transports := peer.transports + [id])], media := m))
  }

  function Produce(s: Sfu, o: Owner, transport: Id, kind: Kind): Result<Sfu> {
    if o !in s.peers || transport !in s.peers[o].transports then Err
    else
      var peer, id := s.peers[o], s.media.nextId;
      var m := s.media.(producers := s.media.producers[id := Producer(o, transport, kind)], nextId := id + 1);
      Ok(s.(peers := s.peers[o := peer.(producers := peer.producers + [id])], media := m))
  }

  /** The producer is open on this router and the capabilities fit. */
  predicate CanConsume(m: Media, router: Id, producer: Id, compatible: bool) {
    producer in m.producers && m.producers[producer].transport in m.transports &&
    m.transports[m.producers[producer].transport].router == router && compatible
  }

  function Consume(s: Sfu, o: Owner, producer: Id, compatible: bool): Result<Sfu> {
    if o !in s.peers || o.call !in s.calls || !CanConsume(s.media, s.calls[o.call].router, producer, compatible) then Err
    else
      var peer, id := s.peers[o], s.media.nextId;
      match FindRecv(s.media, peer.transports)
      case None => Err
      case Some(recv) =>
        var m := s.media.(consumers := s.media.consumers[id := Consumer(o, recv, producer, true)], nextId := id + 1);
        Ok(s.(peers := s.peers[o := peer.(consumers := peer.consumers + [id])], media := m))
  }

  function ResumeConsumer(s: Sfu, o: Owner, consumer: Id): Result<Sfu> {
    if o !in s.peers || consumer !in s.peers[o].consumers || consumer !in s.media.consumers then Err
    else
      var c := s.media.consumers[consumer];
      Ok(s.(media := s.media.(consumers := s.media.consumers[consumer := c.(paused := false)])))
  }

  function ListOwnProducerIds(s: Sfu, o: Owner): seq<Id> {
    if o in s.peers then s.peers[o].producers else []
  }

  function EntriesOf(m: Media, socket: SocketId, peer: PeerState, ids: seq<Id>): seq<Entry> {
    if ids == [] then []
    else
      var rest := EntriesOf(m, socket, peer, ids[1..]);
      if ids[0] in m.producers
      then [Entry(ids[0], socket, peer.userId, m.producers[ids[0]].kind)] + rest
      else rest
  }

  function ListPeers(s: Sfu, call: CallId, sockets: seq<SocketId>, except: SocketId): seq<Entry> {
    if sockets == [] then []
    else
      var rest := ListPeers(s, call, sockets[1..], except);
      var o := Owner(call, sockets[0]);
      if o.socket == except || o !in s.peers then rest
      else EntriesOf(s.media, o.socket, s.peers[o], s.peers[o].producers) + rest
  }

  function ListOtherProducers(s: Sfu, call: CallId, socket: SocketId): seq<Entry> {
    if call !in s.calls then [] else ListPeers(s, call, s.calls[call].sockets, socket)
  }

  function TakePeer(s: Sfu, o: Owner): Sfu
    requires o.call in s.calls
  {
    var call := s.calls[o.call];
    s.(calls := s.calls[o.call := call.(sockets := Without(call.sockets, o.socket))], peers := s.peers - {o})
  }

  function CloseCall(s: Sfu, call: CallId): Sfu
    requires call in s.calls
  {
    s.(calls := s.calls - {call}, media := s.media.(routers := s.media.routers - {s.calls[call].router}))
  }

  /** The peer leaves its call; the last one takes the call and its router with it. */
  function DropPeer(s: Sfu, o: Owner): Sfu
    requires o.call in s.calls
  {
    var taken := TakePeer(s, o);
    if |taken.calls[o.call].sockets| == 0 then CloseCall(taken, o.call) else taken
  }

  function RemovePeer(s: Sfu, o: Owner): Sfu {
    if o !in s.peers || o.call !in s.calls then s
    else DropPeer(s.(media := CloseTransports(s.media, set t | t in s.peers[o].transports)), o)
  }

  /** One `producerclose` reaches its consumer, whose listener drops it from its peer's map. */
  function DeliverProducerClose(s: Sfu, consumer: Id): Sfu {
    if consumer !in s.media.closing || consumer !in s.media.consumers then s
    else
      var o := s.media.consumers[consumer].owner;
      var m := s.media.(consumers := s.media.consumers - {consumer}, closing := s.media.closing - {consumer});
      if o !in s.peers then s.(media := m)
      else
        var peer := s.peers[o];
        s.(peers := s.peers[o := peer.(consumers := Without(peer.consumers, consumer))], media := m)
  }

  // ---- what every operation keeps ----

  ghost predicate RoutersOk(s: Sfu) {
    (forall r :: r in s.media.routers ==>
       s.media.routers[r].call in s.calls && s.calls[s.media.routers[r].call].router == r) &&
    (forall c :: c in s.calls ==>
       s.calls[c].router in s.media.routers && s.media.routers[s.calls[c].router].call == c)
  }

  ghost predicate NoEmptyCall(s: Sfu) {
    forall c :: c in s.calls ==> s.calls[c].sockets != []
  }

  ghost predicate PeersOk(s: Sfu) {
    (forall o {:trigger o in s.peers} {:trigger o.socket in s.calls[o.call].sockets} ::
       o in s.peers <==> o.call in s.calls && o.socket in s.calls[o.call].sockets) &&
    (forall c :: c in s.calls ==> Distinct(s.calls[c].sockets))
  }

  ghost predicate TransportsOk(s: Sfu) {
    (forall t :: t in s.media.transports ==>
       var x := s.media.transports[t];
       x.owner in s.peers && t in s.peers[x.owner].transports && x.owner.call in s.calls && x.router == s.calls[x.owner.call].router) &&
    (forall o, t {:trigger t in s.peers[o].transports} :: o in s.peers && t in s.peers[o].transports ==>
       t in s.media.transports && s.media.transports[t].owner == o)
  }

  ghost predicate ProducersOk(s: Sfu) {
    (forall p :: p in s.media.producers ==>
       var x := s.media.producers[p];
       x.owner in s.peers && p in s.peers[x.owner].producers && x.transport in s.peers[x.owner].transports) &&
    (forall o, p {:trigger p in s.peers[o].producers} :: o in s.peers && p in s.peers[o].producers ==>
       p in s.media.producers && s.media.producers[p].owner == o)
  }

  ghost predicate ConsumersOk(s: Sfu) {
    (forall c :: c in s.media.consumers ==>
       var x := s.media.consumers[c];
       x.owner in s.peers && c in s.peers[x.owner].consumers && x.transport in s.peers[x.owner].transports) &&
    (forall o, c {:trigger c in s.peers[o].consumers} :: o in s.peers && c in s.peers[o].consumers ==>
       c in s.media.consumers && s.media.consumers[c].owner == o) &&
    s.media.closing <= s.media.consumers.Keys
  }

  /** A consumer's producer is held by a peer of the same call, or its `producerclose` is on its way. */
  ghost predicate SourcesOk(s: Sfu) {
    forall c :: c in s.media.consumers ==> c in s.media.closing || SourceHeld(s, s.media.consumers[c])
  }

  ghost predicate SourceHeld(s: Sfu, x: Consumer) {
    x.producer in s.media.producers && s.media.producers[x.producer].owner.call == x.owner.call
  }

  /** `t` is the earliest-created recv transport among `ts`. */
  ghost predicate EarliestRecv(m: Media, ts: seq<Id>, t: Id) {
    t in ts && t in m.transports && m.transports[t].direction.Recv? &&
    forall u {:trigger u in ts} :: u in ts && u in m.transports && m.transports[u].direction.Recv? ==> t <= u
  }

  ghost predicate SingleReceivePath(s: Sfu) {
    forall c :: c in s.media.consumers ==>
      var x := s.media.consumers[c];
      x.owner in s.peers ==> EarliestRecv(s.media, s.peers[x.owner].transports, x.transport)
  }

  ghost predicate Increasing(ids: seq<Id>) {
    forall i, j :: 0 <= i < j < |ids| ==> ids[i] < ids[j]
  }

  /** Ids are handed out once, in increasing order. */
  ghost predicate IdsOk(s: Sfu) {
    (forall r :: r in s.media.routers ==> r < s.media.nextId) &&
    (forall t :: t in s.media.transports ==> t < s.media.nextId) &&
    (forall p :: p in s.media.producers ==> p < s.media.nextId) &&
    (forall c :: c in s.media.consumers ==> c < s.media.nextId && s.media.consumers[c].producer < s.media.nextId) &&
    (forall o :: o in s.peers ==> Increasing(s.peers[o].transports))
  }

  ghost predicate Inv(s: Sfu) {
    (|s.workers| > 0 ==> s.nextWorkerIndex < |s.workers|) &&
    PeersOk(s) && RoutersOk(s) && NoEmptyCall(s) && TransportsOk(s) && ProducersOk(s) && ConsumersOk(s) && SourcesOk(s) &&
    SingleReceivePath(s) && IdsOk(s)
  }
}
