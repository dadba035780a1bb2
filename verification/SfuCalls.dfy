/** What each step of the socket machine asks of the SFU. A fact about every step's SFU side is proved
    operation by operation, without the socket tables. */
module SfuCalls {
  import opened Ids
  import opened JsMaps
  import opened SfuModel
  import opened SfuEffects
  import opened SfuProofs
  import opened SfuResults
  import opened World

  datatype SfuCall =
    | Nothing
    | Ask(o: Owner, user: UserId)
    | Open(o: Owner, direction: Direction)
    | Make(o: Owner, transport: Id, kind: Kind)
    | Take(o: Owner, producer: Id, compatible: bool)
    | Unpause(o: Owner, consumer: Id)
    | Deliver(consumer: Id)
    | Drop(o: Owner)

  function OrElse(s: Sfu, r: Result<Sfu>): Sfu {
    match r
    case Err => s
    case Ok(s') => s'
  }

  function Apply(s: Sfu, c: SfuCall): Sfu {
    match c
    case Nothing => s
    case Ask(o, user) => OrElse(s, GetRtpCapabilities(s, o, user))
    case Open(o, direction) => OrElse(s, CreateTransport(s, o, direction))
    case Make(o, transport, kind) => OrElse(s, Produce(s, o, transport, kind))
    case Take(o, producer, compatible) => OrElse(s, Consume(s, o, producer, compatible))
    case Unpause(o, consumer) => OrElse(s, ResumeConsumer(s, o, consumer))
    case Deliver(consumer) => DeliverProducerClose(s, consumer)
    case Drop(o) => RemovePeer(s, o)
  }

  /** A handler of `sfuEvents.js` acts for the socket's peer in its room's call, if it is in one. */
  function CallFor(w: World, a: Action, room: RoomId): SfuCall {
    match a
    case GetCapabilities(s) => if s in w.users then Ask(Owner(room, s), w.users[s]) else Nothing
    case NewTransport(s, direction) => Open(Owner(room, s), direction)
    case StartProducing(s, transport, kind) => if s in w.users then Make(Owner(room, s), transport, kind) else Nothing
    case StartConsuming(s, producer, compatible) => Take(Owner(room, s), producer, compatible)
    case Resume(s, consumer) => Unpause(Owner(room, s), consumer)
    case Leave(s, target, dbOk) => if s in w.data && dbOk then Drop(Owner(room, s)) else Nothing
    case Disconnect(s) => Drop(Owner(room, s))
    case _ => Nothing
  }

  function CallOf(w: World, a: Action): SfuCall {
    if a.ProducerCloseArrives? then Deliver(a.consumer)
    else
      match RoomOf(w, a.socket)
      case None => Nothing
      case Some(room) => CallFor(w, a, room)
  }

  lemma LeaveCalls(w: World, s: SocketId, target: Option<RoomId>, dbOk: bool)
    ensures OnLeave(w, s, target, dbOk).sfu == Apply(w.sfu, CallOf(w, Leave(s, target, dbOk)))
  {
  }

  lemma DisconnectCalls(w: World, s: SocketId)
    ensures OnDisconnect(w, s).sfu == Apply(w.sfu, CallOf(w, Disconnect(s)))
  {
  }

  lemma RoomStepCalls(w: World, a: Action)
    requires !SfuAction(a)
    ensures Step(w, a).sfu == Apply(w.sfu, CallOf(w, a))
  {
    match a
    case Leave(s, target, dbOk) => LeaveCalls(w, s, target, dbOk);
    case Disconnect(s) => DisconnectCalls(w, s);
    case _ =>
  }

  lemma HandlerCalls(w: World, a: Action)
    requires SfuAction(a)
    ensures Step(w, a).sfu == Apply(w.sfu, CallOf(w, a))
  {
  }

  lemma StepCalls(w: World, a: Action)
    ensures Step(w, a).sfu == Apply(w.sfu, CallOf(w, a))
  {
    if SfuAction(a) {
      HandlerCalls(w, a);
    } else {
      RoomStepCalls(w, a);
    }
  }

  lemma CreateTransportTouchesSfu(w: World, s: SocketId, direction: Direction)
    ensures OnCreateTransport(w, s, direction) == w.(sfu := OnCreateTransport(w, s, direction).sfu)
  {
  }

  lemma ConsumeTouchesSfu(w: World, s: SocketId, producer: Id, compatible: bool)
    ensures OnConsume(w, s, producer, compatible) == w.(sfu := OnConsume(w, s, producer, compatible).sfu)
  {
  }

  lemma ResumeTouchesSfu(w: World, s: SocketId, consumer: Id)
    ensures OnResumeConsumer(w, s, consumer) == w.(sfu := OnResumeConsumer(w, s, consumer).sfu)
  {
  }

  /** The other handlers also send something. */
  predicate Silent(a: Action) {
    a.NewTransport? || a.StartConsuming? || a.Resume? || a.ProducerCloseArrives?
  }

  lemma SilentTouchesSfu(w: World, a: Action)
    requires Silent(a)
    ensures Step(w, a) == w.(sfu := Step(w, a).sfu)
  {
    match a
    case NewTransport(s, direction) => CreateTransportTouchesSfu(w, s, direction);
    case StartConsuming(s, producer, compatible) => ConsumeTouchesSfu(w, s, producer, compatible);
    case Resume(s, consumer) => ResumeTouchesSfu(w, s, consumer);
    case _ =>
  }

  lemma UsersGrow(w: World, a: Action, s: SocketId)
    requires s in w.users
    ensures s in Step(w, a).users && Step(w, a).users[s] == w.users[s]
  {
  }

  // ---- every operation ----

  lemma ApplyKeepsInv(s: Sfu, c: SfuCall)
    requires Inv(s)
    ensures Inv(Apply(s, c))
  {
    match c
    case Nothing =>
    case Ask(o, user) => if GetRtpCapabilities(s, o, user).Ok? { GetRtpCapabilitiesKeeps(s, o, user); }
    case Open(o, direction) => if CreateTransport(s, o, direction).Ok? { CreateTransportKeeps(s, o, direction); }
    case Make(o, transport, kind) => if Produce(s, o, transport, kind).Ok? { ProduceKeeps(s, o, transport, kind); }
    case Take(o, producer, compatible) =>
      if Consume(s, o, producer, compatible).Ok? { ConsumeKeeps(s, o, producer, compatible); }
    case Unpause(o, consumer) => if ResumeConsumer(s, o, consumer).Ok? { ResumeConsumerKeeps(s, o, consumer); }
    case Deliver(consumer) => DeliverProducerCloseKeeps(s, consumer);
    case Drop(o) => RemovePeerKeeps(s, o);
  }

  /** Peers come by `Ask` and go by `Drop`; nobody's user changes. */
  lemma PeersAfter(s: Sfu, c: SfuCall, o: Owner)
    requires PeersOk(s)
    ensures o in s.peers ==> (o in Apply(s, c).peers <==> c != Drop(o))
    ensures o in Apply(s, c).peers ==>
      if o in s.peers then Apply(s, c).peers[o].userId == s.peers[o].userId
      else c.Ask? && c.o == o && Apply(s, c).peers[o].userId == c.user
  {
  }

  /** The open producers and the peers' users are the same. */
  ghost predicate Quiet(s: Sfu, s': Sfu) {
    s'.media.producers == s.media.producers &&
    forall o :: o in s.peers && o in s'.peers ==> s'.peers[o].userId == s.peers[o].userId
  }

  lemma ApplyIsQuiet(s: Sfu, c: SfuCall)
    requires !c.Make? && !c.Drop?
    ensures Quiet(s, Apply(s, c))
  {
  }

  /** The routers and the turn stay; calls may go. */
  ghost predicate Idle(s: Sfu, s': Sfu) {
    s'.media.routers.Keys <= s.media.routers.Keys && s'.nextWorkerIndex == s.nextWorkerIndex &&
    s'.calls.Keys <= s.calls.Keys
  }

  lemma ApplyIsIdle(s: Sfu, c: SfuCall)
    requires !c.Ask?
    ensures Idle(s, Apply(s, c))
  {
  }

  lemma ApplyKeepsWorkers(s: Sfu, c: SfuCall)
    ensures Apply(s, c).workers == s.workers
  {
  }

  /** A consumer is new and paused, or keeps what it was but for an `Unpause` of it that succeeds. */
  lemma ConsumerAfter(s: Sfu, c: SfuCall, id: Id)
    requires IdsOk(s)
    ensures id in Apply(s, c).media.consumers ==>
      if id in s.media.consumers
      then
        Apply(s, c).media.consumers[id].paused ==
          (s.media.consumers[id].paused && !(c.Unpause? && c.consumer == id && ResumeConsumer(s, c.o, id).Ok?))
      else c.Take? && id == s.media.nextId && Apply(s, c).media.consumers[id].paused
    ensures s.media.nextId <= Apply(s, c).media.nextId
  {
  }

  // ---- who can receive ----

  lemma SameListsSameRecv(s: Sfu, s': Sfu, o: Owner)
    requires o in s.peers && o in s'.peers && s'.peers[o].transports == s.peers[o].transports
    requires forall t :: t in s.peers[o].transports ==>
      (t in s'.media.transports <==> t in s.media.transports) &&
      (t in s.media.transports ==> s'.media.transports[t] == s.media.transports[t])
    ensures HasRecv(s', o) <==> HasRecv(s, o)
  {
    assert forall t :: t in s'.peers[o].transports <==> t in s.peers[o].transports;
  }

  lemma DropKeepsRecv(s: Sfu, q: Owner, o: Owner)
    requires Inv(s) && q in s.peers && o in s.peers && o != q
    ensures HasRecv(RemovePeer(s, q), o) <==> HasRecv(s, o)
  {
    RemovePeerKeepsOthers(s, q);
    RemovePeerClosesItsOwn(s, q);
    SameListsSameRecv(s, RemovePeer(s, q), o);
  }

  lemma AskKeepsRecv(s: Sfu, q: Owner, user: UserId, o: Owner)
    requires Inv(s) && s.workers != []
    ensures HasRecv(GetRtpCapabilities(s, q, user).value, o) <==> HasRecv(s, o)
  {
    var s' := GetRtpCapabilities(s, q, user).value;
    AskExactly(s, q, user);
    if o in s.peers {
      SameListsSameRecv(s, s', o);
    } else if o == q {
      assert forall t :: t !in s'.peers[o].transports;
    }
  }

  /** Only making one to receive gives a peer a recv transport, and only leaving takes it. */
  lemma RecvAfter(s: Sfu, c: SfuCall, o: Owner)
    requires Inv(s)
    ensures HasRecv(Apply(s, c), o) <==> o in s.peers && c != Drop(o) && (HasRecv(s, o) || c == Open(o, Recv))
  {
    match c
    case Nothing =>
    case Ask(q, user) =>
      AskExactly(s, q, user);
      if s.workers != [] {
        AskKeepsRecv(s, q, user, o);
      }
    case Open(q, direction) =>
      CreateTransportExactly(s, q, direction);
      if q in s.peers {
        CreateTransportGivesRecv(s, q, direction, o);
      }
    case Make(q, transport, kind) => ProduceKeepsRecv(s, q, transport, kind, o);
    case Take(q, producer, compatible) => ConsumeKeepsRecv(s, q, producer, compatible, o);
    case Unpause(q, consumer) => ResumeExactly(s, q, consumer);
    case Deliver(consumer) => DeliverKeepsRecv(s, consumer, o);
    case Drop(q) =>
      if q in s.peers {
        RemovePeerKeepsOthers(s, q);
        if o in s.peers && o != q {
          DropKeepsRecv(s, q, o);
        }
      }
  }

  lemma ProduceKeepsRecv(s: Sfu, q: Owner, transport: Id, kind: Kind, o: Owner)
    requires Inv(s)
    ensures Produce(s, q, transport, kind).Ok? ==> (HasRecv(Produce(s, q, transport, kind).value, o) <==> HasRecv(s, o))
  {
    ProduceExactly(s, q, transport, kind);
    if Produce(s, q, transport, kind).Ok? && o in s.peers {
      SameListsSameRecv(s, Produce(s, q, transport, kind).value, o);
    }
  }

  lemma ConsumeKeepsRecv(s: Sfu, q: Owner, producer: Id, compatible: bool, o: Owner)
    requires Inv(s)
    ensures Consume(s, q, producer, compatible).Ok? ==>
      (HasRecv(Consume(s, q, producer, compatible).value, o) <==> HasRecv(s, o))
  {
    if Consume(s, q, producer, compatible).Ok? {
      ConsumeExactly(s, q, producer, compatible);
      if o in s.peers {
        SameListsSameRecv(s, Consume(s, q, producer, compatible).value, o);
      }
    }
  }

  lemma DeliverKeepsRecv(s: Sfu, consumer: Id, o: Owner)
    requires Inv(s)
    ensures HasRecv(DeliverProducerClose(s, consumer), o) <==> HasRecv(s, o)
  {
    DeliverExactly(s, consumer);
    if o in s.peers {
      SameListsSameRecv(s, DeliverProducerClose(s, consumer), o);
    }
  }
}
